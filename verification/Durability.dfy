/**
 * What every run of the reducer keeps: numbers, durability, and the one staged operation. All of it is about a small
 * part of the state, its ledger, and every action does one of five things to the ledger. So the pending numbers are,
 * in every run, those sent and not yet acknowledged.
 */
module Durability {
  import opened Options
  import opened AttachmentNumbering
  import opened SessionBoards
  import opened Reducer

  // ---------------------------------------------------------------------------------------------
  // The invariant

  predicate Increasing(numbers: seq<nat>) { forall i, j :: 0 <= i < j < |numbers| ==> numbers[i] < numbers[j] }

  /** Without pending sequences everything given out is durable; otherwise the highest is pending or captured. */
  predicate Numbers(pending: seq<nat>, highest: nat, lastDurable: nat) {
    && Increasing(pending) && (forall i :: 0 <= i < |pending| ==> pending[i] <= highest) && lastDurable <= highest
    && (if pending != [] && pending[|pending| - 1] == highest then lastDurable < highest else lastDurable == highest)
  }

  /** Settled exactly without pending sequences; outstanding names the last of them; failed names one of them. */
  predicate Truthful(durability: Reducer.Durability, pending: seq<nat>, lastDurable: nat) {
    match durability
    case Settled(sequence) => pending == [] && sequence == lastDurable
    case Outstanding(durable, latest) =>
      pending != [] && durable == lastDurable && latest == pending[|pending| - 1]
    case Failed(_, failed, _) => failed in pending
  }

  predicate IsRemoval(mutation: Mutation) {
    mutation.Batch? && forall i :: 0 <= i < |mutation.mutations| ==>
      mutation.mutations[i].SetDeletion? && mutation.mutations[i].deletedAt.Some?
  }

  /** At most one operation is staged: a removal under the highest sequence. */
  predicate StagedOnce(deferred: map<nat, Operation>, pending: seq<nat>, highest: nat) {
    deferred == map[] ||
    (deferred.Keys == {highest} && highest in pending && deferred[highest].sequence == highest
     && IsRemoval(deferred[highest].forward))
  }

  /** The part of the state that numbers and durability are about. */
  datatype Ledger = Ledger(pending: seq<nat>, highest: nat, lastDurable: nat, deferred: map<nat, Operation>,
                           durability: Reducer.Durability)

  function LedgerOf(s: State): Ledger {
    Ledger(s.pending, s.highest, s.board.lastDurable, s.deferred, s.durability)
  }

  predicate Sound(l: Ledger) {
    && Numbers(l.pending, l.highest, l.lastDurable) && Truthful(l.durability, l.pending, l.lastDurable)
    && StagedOnce(l.deferred, l.pending, l.highest)
  }

  predicate Inv(s: State) { Sound(LedgerOf(s)) }

  // ---------------------------------------------------------------------------------------------
  // What can happen to the ledger

  function Reviewed(l: Ledger): Ledger { l.(durability := Review(l.durability, l.pending, l.lastDurable)) }

  function Extended(l: Ledger): Ledger {
    Reviewed(l.(highest := l.highest + 1, pending := l.pending + [l.highest + 1]))
  }

  predicate SendsNothing(effects: seq<Effect>) { effects == [] || (|effects| == 1 && !effects[0].Commit?) }

  predicate Quiet(s: State, o: Outcome) { LedgerOf(o.state) == LedgerOf(s) && SendsNothing(o.effects) }

  predicate Sends(s: State, o: Outcome) {
    && s.deferred == map[] && o.ok && LedgerOf(o.state) == Extended(LedgerOf(s))
    && o.effects == [Commit(s.highest + 1)]
  }

  predicate Stages(s: State, o: Outcome) {
    && s.deferred == map[] && o.ok && o.effects == [Commit(s.highest + 1)]
    && s.highest + 1 in o.state.deferred
    && var operation := o.state.deferred[s.highest + 1];
       && operation.sequence == s.highest + 1 && IsRemoval(operation.forward)
       && LedgerOf(o.state) == Extended(LedgerOf(s)).(deferred := map[s.highest + 1 := operation])
  }

  /** The first pending sequence is durable. */
  predicate Commits(s: State, action: Action, o: Outcome) {
    && action.PersistenceCommitted? && o.ok && o.effects == []
    && s.pending != [] && s.pending[0] == action.sequence
    && LedgerOf(o.state) == Shortened(LedgerOf(s))
  }

  function Shortened(l: Ledger): Ledger
    requires l.pending != []
  {
    Reviewed(l.(pending := l.pending[1..], deferred := l.deferred - {l.pending[0]},
                lastDurable := if l.lastDurable < l.pending[0] then l.pending[0] else l.lastDurable))
  }

  /** Storage trouble and its end move only the durability shown. */
  predicate Reports(s: State, o: Outcome) {
    && SendsNothing(o.effects) && o.ok && s.pending != []
    && LedgerOf(o.state) == LedgerOf(s).(durability := o.state.durability)
    && Truthful(o.state.durability, s.pending, s.board.lastDurable)
  }

  // ---------------------------------------------------------------------------------------------
  // Each keeps it sound

  lemma ReviewedIsTruthful(l: Ledger)
    ensures Truthful(Reviewed(l).durability, l.pending, l.lastDurable)
    ensures Reviewed(l) == l.(durability := Reviewed(l).durability)
  {
  }

  lemma ExtendedIsSound(l: Ledger)
    requires Sound(l) && l.deferred == map[]
    ensures Sound(Extended(l)) && Extended(l).pending == l.pending + [l.highest + 1]
    ensures Extended(l).highest == l.highest + 1 && Extended(l).deferred == map[]
    ensures forall operation: Operation :: operation.sequence == l.highest + 1 && IsRemoval(operation.forward) ==>
              Sound(Extended(l).(deferred := map[l.highest + 1 := operation]))
  {
    ReviewedIsTruthful(l.(highest := l.highest + 1, pending := l.pending + [l.highest + 1]));
    assert (l.pending + [l.highest + 1])[|l.pending|] == l.highest + 1;
  }

  lemma ShortenedIsSound(l: Ledger)
    requires Sound(l) && l.pending != []
    ensures Sound(Shortened(l)) && l.pending == [l.pending[0]] + Shortened(l).pending
    ensures Shortened(l).highest == l.highest
  {
    var durable := if l.lastDurable < l.pending[0] then l.pending[0] else l.lastDurable;
    RestInOrder(l.pending, l.highest, l.lastDurable);
    StillStaged(l);
    ReviewedIsTruthful(l.(pending := l.pending[1..], deferred := l.deferred - {l.pending[0]}, lastDurable := durable));
  }

  lemma RestInOrder(pending: seq<nat>, highest: nat, lastDurable: nat)
    requires Numbers(pending, highest, lastDurable) && pending != []
    ensures Numbers(pending[1..], highest, if lastDurable < pending[0] then pending[0] else lastDurable)
    ensures pending == [pending[0]] + pending[1..]
  {
  }

  lemma StillStaged(l: Ledger)
    requires Sound(l) && l.pending != []
    ensures StagedOnce(l.deferred - {l.pending[0]}, l.pending[1..], l.highest)
  {
    if l.deferred != map[] {
      if l.pending[0] == l.highest {
        assert l.deferred - {l.pending[0]} == map[];
      } else {
        assert l.pending == [l.pending[0]] + l.pending[1..];
        assert (l.deferred - {l.pending[0]}).Keys == {l.highest};
      }
    } else {
      assert l.deferred - {l.pending[0]} == map[];
    }
  }

  // ---------------------------------------------------------------------------------------------
  // What the actions do to the ledger

  lemma TrackedLedger(s: State)
    ensures LedgerOf(Tracked(s, s.highest + 1)) == Extended(LedgerOf(s))
  {
  }

  lemma EnteredLedger(s: State, operation: Operation, refused: bool)
    requires Entered(s, operation, refused).Some?
    ensures LedgerOf(Entered(s, operation, refused).value) == LedgerOf(s)
  {
  }

  lemma PerformedLedger(s: State, plan: Plan, refused: bool)
    ensures Quiet(s, Performed(s, plan, refused)) || Sends(s, Performed(s, plan, refused))
  {
    if plan.TrackOnly? {
      TrackedLedger(s);
    } else if plan.Perform? && NextSequence(s).Some? {
      var operation := Operation(s.highest + 1, Batch(plan.forward), Batch(plan.inverse));
      var entered := Entered(s, operation, refused);
      if entered.Some? {
        EnteredLedger(s, operation, refused);
        TrackedLedger(entered.value);
      }
    }
  }

  lemma MovedLedger(s: State, scope: Scope, undo: bool)
    ensures MovedBoard(s, undo).Some? ==> LedgerOf(MovedBoard(s, undo).value) == LedgerOf(s)
    ensures scope.EditorScope? && MovedEditor(s, scope.id, undo).Some? ==>
              LedgerOf(MovedEditor(s, scope.id, undo).value) == LedgerOf(s)
  {
  }

  lemma HistoryLedger(s: State, scope: Scope, undo: bool, refused: bool)
    ensures Quiet(s, HistoryMoved(s, scope, undo, refused)) || Sends(s, HistoryMoved(s, scope, undo, refused))
  {
    MovedLedger(s, scope, undo);
    var moved := if scope.BoardScope? then MovedBoard(s, undo) else MovedEditor(s, scope.id, undo);
    if moved.Some? { TrackedLedger(moved.value); }
  }

  lemma EditedLedger(s: State, edit: Rewrite, refused: bool)
    ensures Quiet(s, Edited(s, edit, refused)) || Sends(s, Edited(s, edit, refused))
  {
    var after := Unnumbered(s, edit);
    if after.Some? { TrackedLedger(after.value); }
  }

  lemma StagedLedger(s: State, ids: seq<ThoughtId>, at: Timestamp)
    ensures Quiet(s, StagedRemoval(s, ids, at)) || Stages(s, StagedRemoval(s, ids, at))
  {
    TrackedLedger(s);
    if StagedRemoval(s, ids, at).ok {
      var operation := Operation(s.highest + 1, Batch(Deletions(ids, Some(at))), Batch(Deletions(ids, None)));
      assert s.deferred[s.highest + 1 := operation] == map[s.highest + 1 := operation];
    }
  }

  lemma ClipboardLedger(s: State, request: RequestId, written: bool, refused: bool)
    ensures Quiet(s, ClipboardFinished(s, request, written, refused))
            || Sends(s, ClipboardFinished(s, request, written, refused))
  {
    if request in s.clipboard {
      var rest := s.(clipboard := s.clipboard - {request});
      var plan := PlanOf(s.board, Delete(SourceIds(s.clipboard[request].sources), s.clipboard[request].at));
      PerformedLedger(rest, plan, refused);
    }
  }

  lemma CommittedLedger(s: State, sequence: nat, refused: bool)
    ensures var action := PersistenceCommitted(sequence);
            Quiet(s, Persistence(s, action, refused)) || Commits(s, action, Persistence(s, action, refused))
    ensures var o := Persistence(s, PersistenceCommitted(sequence), refused);
            if o.ok then Commits(s, PersistenceCommitted(sequence), o) else o.state == s
  {
    if s.pending != [] && s.pending[0] == sequence {
      if sequence in s.deferred {
        if Entered(s, s.deferred[sequence], refused).Some? { EnteredLedger(s, s.deferred[sequence], refused); }
      } else {
        assert s.deferred - {sequence} == s.deferred;
      }
    }
  }

  lemma TroubleLedger(s: State, action: Action, refused: bool)
    requires Inv(s) && (action.PersistenceFailed? || action.RetryPersistence?)
    ensures Quiet(s, Persistence(s, action, refused)) || Reports(s, Persistence(s, action, refused))
  {
  }

  /** Every action does one of five things to the ledger. */
  predicate LedgerStep(s: State, action: Action, o: Outcome) {
    Quiet(s, o) || Sends(s, o) || Stages(s, o) || Commits(s, action, o) || Reports(s, o)
  }

  lemma PlannedLedger(s: State, action: Action, refused: bool)
    requires Plans(action)
    ensures Quiet(s, Reduce(s, action, refused)) || Sends(s, Reduce(s, action, refused))
  {
    if !Stopped(s, action) { PerformedLedger(s, PlanOf(s.board, action), refused); }
  }

  lemma PersistedLedger(s: State, action: Action, refused: bool)
    requires Inv(s) && Persists(action)
    ensures var o := Reduce(s, action, refused);
            if action.PersistenceCommitted? then (if o.ok then Commits(s, action, o) else o.state == s && Quiet(s, o))
            else Quiet(s, o) || Reports(s, o)
  {
    if !Stopped(s, action) {
      if action.PersistenceCommitted? {
        CommittedLedger(s, action.sequence, refused);
      } else {
        TroubleLedger(s, action, refused);
      }
    }
  }

  lemma HandledLedger(s: State, action: Action, refused: bool)
    requires !Plans(action) && !Persists(action)
    ensures var o := Reduce(s, action, refused); Quiet(s, o) || Sends(s, o) || Stages(s, o)
  {
    if !Stopped(s, action) {
      if action.Edit? {
        EditedLedger(s, action.edit, refused);
      } else if action.StageRemoval? {
        StagedLedger(s, action.ids, action.at);
      } else if action.ClipboardResult? {
        ClipboardLedger(s, action.request, action.written && !s.durability.Failed?, refused);
      } else if action.Undo? || action.Redo? {
        HistoryLedger(s, action.scope, action.Undo?, refused);
      } else {
        OthersLeaveItems(s, action, refused);
      }
    }
  }

  /** The handlers that can change the board. */
  predicate Acts(action: Action) { action.Edit? || action.ClipboardResult? || action.Undo? || action.Redo? }

  lemma OthersLeaveItems(s: State, action: Action, refused: bool)
    requires !Plans(action) && !Persists(action) && !Acts(action)
    ensures var o := Handled(s, action, refused);
            && o.state.board == s.board && o.state.history == s.history && o.state.cursor == s.cursor
            && o.state.editors == s.editors && (!action.StageRemoval? ==> Quiet(s, o))
  {
  }

  lemma ReduceLedger(s: State, action: Action, refused: bool)
    requires Inv(s)
    ensures LedgerStep(s, action, Reduce(s, action, refused))
    ensures !action.PersistenceCommitted? ==> !Commits(s, action, Reduce(s, action, refused))
    ensures action.PersistenceCommitted? ==>
      if Reduce(s, action, refused).ok then Commits(s, action, Reduce(s, action, refused))
      else Reduce(s, action, refused).state == s
  {
    if Plans(action) {
      PlannedLedger(s, action, refused);
    } else if Persists(action) {
      PersistedLedger(s, action, refused);
    } else {
      HandledLedger(s, action, refused);
    }
  }

  // ---------------------------------------------------------------------------------------------
  // Runs

  /** Reducer actions, and screenshots that storage has accepted; the flag stands for the checks not modelled. */
  datatype Input = Act(action: Action, refused: bool) | Shot(operation: Operation, refused: bool)

  function Step(s: State, input: Input): Outcome {
    match input
    case Act(action, refused) => Reduce(s, action, refused)
    case Shot(operation, refused) =>
      var captured := Captured(s, operation, refused);
      if captured.None? then Rejected(s) else Done(captured.value, [])
  }

  function After(s: State, inputs: seq<Input>): State {
    if inputs == [] then s else Step(After(s, inputs[..|inputs| - 1]), inputs[|inputs| - 1]).state
  }

  predicate Acknowledges(input: Input, o: Outcome) { input.Act? && input.action.PersistenceCommitted? && o.ok }

  /** Sequences sent to storage by one step. */
  function SentIn(o: Outcome): seq<nat> { if SendsNothing(o.effects) then [] else [o.state.highest] }

  function SentBy(s: State, inputs: seq<Input>): seq<nat> {
    if inputs == [] then []
    else
      var before := inputs[..|inputs| - 1];
      SentBy(s, before) + SentIn(Step(After(s, before), inputs[|inputs| - 1]))
  }

  function AcknowledgedBy(s: State, inputs: seq<Input>): seq<nat> {
    if inputs == [] then []
    else
      var before, input := inputs[..|inputs| - 1], inputs[|inputs| - 1];
      AcknowledgedBy(s, before) + AckIn(input, Step(After(s, before), input))
  }

  /** Sends the next number, or acknowledges the first pending, or neither; and stays sound. */
  predicate GoodStep(s: State, input: Input, o: Outcome) {
    && Inv(o.state) && s.highest <= o.state.highest
    && (SentIn(o) != [] ==> o.effects == [Commit(o.state.highest)] && o.state.highest == s.highest + 1)
    && (if Acknowledges(input, o) then SentIn(o) == [] && s.pending == [input.action.sequence] + o.state.pending
        else o.state.pending == s.pending + SentIn(o))
  }

  lemma GoodReduce(s: State, action: Action, refused: bool)
    requires Inv(s)
    ensures GoodStep(s, Act(action, refused), Reduce(s, action, refused))
  {
    ReduceLedger(s, action, refused);
    GoodOutcome(s, Act(action, refused), Reduce(s, action, refused));
  }

  lemma GoodOutcome(s: State, input: Input, o: Outcome)
    requires Inv(s) && input.Act? && LedgerStep(s, input.action, o)
    requires input.action.PersistenceCommitted? ==>
      if o.ok then Commits(s, input.action, o) else o.state == s
    requires !input.action.PersistenceCommitted? ==> !Commits(s, input.action, o)
    ensures GoodStep(s, input, o)
  {
    if Commits(s, input.action, o) {
      ShortenedIsSound(LedgerOf(s));
    } else {
      assert s.pending + [] == s.pending;
      if Sends(s, o) || Stages(s, o) { ExtendedIsSound(LedgerOf(s)); }
    }
  }

  lemma CapturedLedger(s: State, operation: Operation, refused: bool)
    requires Captured(s, operation, refused).Some?
    ensures s.deferred == map[]
    ensures LedgerOf(Captured(s, operation, refused).value) ==
            Reviewed(LedgerOf(s).(highest := s.highest + 1, lastDurable := s.highest + 1))
  {
    EnteredLedger(s, operation, refused);
  }

  lemma GoodShot(s: State, operation: Operation, refused: bool)
    requires Inv(s)
    ensures GoodStep(s, Shot(operation, refused), Step(s, Shot(operation, refused)))
  {
    assert s.pending + [] == s.pending;
    if Captured(s, operation, refused).Some? {
      CapturedLedger(s, operation, refused);
      ReviewedIsTruthful(LedgerOf(s).(highest := s.highest + 1, lastDurable := s.highest + 1));
    }
  }

  lemma GoodSteps(s: State, input: Input)
    requires Inv(s)
    ensures GoodStep(s, input, Step(s, input))
  {
    match input
    case Act(action, refused) => GoodReduce(s, action, refused);
    case Shot(operation, refused) => GoodShot(s, operation, refused);
  }

  lemma InitialIsSound(board: Board)
    ensures Inv(Initial(board))
  {
  }

  /**
   * Along every run: the sequences sent increase, storage acknowledges them in that order, and the pending
   * ones are exactly those sent and not yet acknowledged.
   */
  lemma {:induction false} PendingIsSentMinusAcknowledged(board: Board, inputs: seq<Input>)
    ensures var s := After(Initial(board), inputs);
            && Inv(s)
            && SentBy(Initial(board), inputs) == AcknowledgedBy(Initial(board), inputs) + s.pending
            && Within(SentBy(Initial(board), inputs), s.highest)
  {
    if inputs == [] {
      InitialIsSound(board);
    } else {
      var before, input := inputs[..|inputs| - 1], inputs[|inputs| - 1];
      PendingIsSentMinusAcknowledged(board, before);
      GoodSteps(After(Initial(board), before), input);
      QueueOutcome(SentBy(Initial(board), before), AcknowledgedBy(Initial(board), before),
                   After(Initial(board), before), input, Step(After(Initial(board), before), input));
    }
  }

  function AckIn(input: Input, o: Outcome): seq<nat> {
    if Acknowledges(input, o) then [input.action.sequence] else []
  }

  lemma QueueOutcome(sent: seq<nat>, acknowledged: seq<nat>, s: State, input: Input, o: Outcome)
    requires sent == acknowledged + s.pending && Within(sent, s.highest) && GoodStep(s, input, o)
    ensures sent + SentIn(o) == acknowledged + AckIn(input, o) + o.state.pending
    ensures Within(sent + SentIn(o), o.state.highest)
  {
    QueueStep(sent, acknowledged, s.pending, s.highest, SentIn(o), AckIn(input, o), o.state.pending);
  }

  lemma QueueStep(sent: seq<nat>, acknowledged: seq<nat>, pending: seq<nat>, highest: nat, now: seq<nat>,
                  ack: seq<nat>, after: seq<nat>)
    requires sent == acknowledged + pending && Within(sent, highest)
    requires now == [] || now == [highest + 1]
    requires if ack == [] then after == pending + now else now == [] && pending == ack + after
    ensures sent + now == acknowledged + ack + after
    ensures Within(sent + now, highest + |now|)
  {
    if ack == [] {
      assert acknowledged + [] == acknowledged;
      assert acknowledged + (pending + now) == acknowledged + pending + now;
    } else {
      assert sent + now == sent;
      assert acknowledged + (ack + after) == acknowledged + ack + after;
    }
  }

  /** Increasing up to a bound. */
  predicate Within(numbers: seq<nat>, bound: nat) {
    Increasing(numbers) && forall i :: 0 <= i < |numbers| ==> numbers[i] <= bound
  }

  /** What the interface shows is true: settled exactly without pending sequences, and then of all of them. */
  lemma ShownDurabilityIsTrue(board: Board, inputs: seq<Input>)
    ensures var s := After(Initial(board), inputs);
            && (s.durability.Settled? <==> s.pending == [])
            && (s.durability.Settled? ==> s.durability.sequence == s.highest)
            && (s.durability.Outstanding? ==> OutstandingIsTrue(s))
            && (s.durability.Failed? ==> s.durability.failed in s.pending)
  {
    PendingIsSentMinusAcknowledged(board, inputs);
  }

  predicate OutstandingIsTrue(s: State)
    requires s.durability.Outstanding?
  {
    && s.durability.durable == s.board.lastDurable && s.durability.latest in s.pending
    && forall q :: q in s.pending ==> q <= s.durability.latest
  }

  /** The durable number shown lies below the outstanding one exactly while no newer screenshot has overtaken it. */
  lemma DurableBelowLatest(board: Board, inputs: seq<Input>)
    ensures var s := After(Initial(board), inputs);
            s.durability.Outstanding? ==> (s.durability.durable < s.durability.latest <==> s.highest in s.pending)
  {
    PendingIsSentMinusAcknowledged(board, inputs);
    BelowLatest(LedgerOf(After(Initial(board), inputs)));
  }

  /** Every screenshot accepted while sequences are outstanding overtakes all of them. */
  lemma CaptureOvertakes(s: State, operation: Operation, refused: bool)
    requires Inv(s) && s.durability.Outstanding? && Captured(s, operation, refused).Some?
    ensures Captured(s, operation, refused).value.durability == Outstanding(s.highest + 1, s.durability.latest)
    ensures s.durability.latest < s.highest + 1
  {
    CapturedLedger(s, operation, refused);
  }

  lemma BelowLatest(l: Ledger)
    requires Sound(l)
    ensures l.durability.Outstanding? ==> (l.durability.durable < l.durability.latest <==> l.highest in l.pending)
  {
    if l.highest in l.pending {
      var i :| 0 <= i < |l.pending| && l.pending[i] == l.highest;
      assert i == |l.pending| - 1;
    }
  }
}
