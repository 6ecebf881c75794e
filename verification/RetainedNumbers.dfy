/**
 * Numbers that the board history and the staged operation retain, and when the counters cover them. An operation's
 * payload was on the board before or is there afterwards, and then the counters know it, unless a creation meets an
 * identity in use: then the old thought comes back and the payload is only on record.
 */
module RetainedNumbers {
  import opened Options
  import opened AttachmentNumbering
  import opened SessionBoards
  import opened Reducer
  import opened Durability
  import opened Ordinals
  import opened ValidBoards
  import U = Undo

  // ---------------------------------------------------------------------------------------------
  // What an operation retains

  /** Every number in the payload of a mutation, before or after. */
  function Retained(mutation: Mutation): set<Occurrence> {
    match mutation
    case Batch(mutations) => set i: nat, o | i < |mutations| && o in Retained(mutations[i]) :: o
    case AddThought(_, thought) => Occurrences(thought.annotations)
    case SetDeletionExact(_, _, annotations, _, _) => Occurrences(annotations)
    case ReplaceContent(_, _, before, _, after) => Occurrences(before) + Occurrences(after)
    case _ => {}
  }

  predicate OperationCovered(counters: Counters, operation: Operation) {
    Dominates(counters, Retained(operation.forward)) && Dominates(counters, Retained(operation.inverse))
  }

  predicate HistoryCovered(s: State) {
    && (forall i :: 0 <= i < |s.history| ==> OperationCovered(s.board.counters, s.history[i]))
    && (forall q :: q in s.deferred ==> OperationCovered(s.board.counters, s.deferred[q]))
  }

  /** A created thought whose identity was in use: the old thought comes back, and the new numbers appear nowhere. */
  predicate Misses(thoughts: seq<Entry>, counters: Counters, forward: seq<Mutation>) {
    exists i :: 0 <= i < |forward| && MissesAt(thoughts, counters, forward[i])
  }

  predicate MissesAt(thoughts: seq<Entry>, counters: Counters, mutation: Mutation) {
    mutation.AddThought? && Lookup(thoughts, mutation.id).Some?
    && !Dominates(counters, Occurrences(mutation.thought.annotations))
  }

  // ---------------------------------------------------------------------------------------------
  // Payloads are on the board, before or after

  /** On one of two boards, or in the payload of a creation with an identity in use. */
  predicate Seen(before: seq<Entry>, after: seq<Entry>, forward: seq<Mutation>, o: Occurrence) {
    o in OnBoard(before) || o in OnBoard(after) || exists i :: 0 <= i < |forward| && Reuses(before, forward[i], o)
  }

  predicate Reuses(before: seq<Entry>, mutation: Mutation, o: Occurrence) {
    mutation.AddThought? && Lookup(before, mutation.id).Some? && o in Occurrences(mutation.thought.annotations)
  }

  predicate AllSeen(before: seq<Entry>, after: seq<Entry>, forward: seq<Mutation>, batch: seq<Mutation>) {
    forall k :: 0 <= k < |batch| ==> SeenOf(before, after, forward, batch[k])
  }

  predicate SeenOf(before: seq<Entry>, after: seq<Entry>, forward: seq<Mutation>, mutation: Mutation) {
    forall o :: o in Retained(mutation) ==> Seen(before, after, forward, o)
  }

  /** After a batch over distinct thoughts, each addition and replacement is on the board, or reused an identity. */
  lemma SeparatePayloads(thoughts: seq<Entry>, forward: seq<Mutation>, i: nat)
    requires U.Separate(forward) && Mutated(thoughts, Batch(forward)).Some? && i < |forward|
    ensures SeenOf(thoughts, Mutated(thoughts, Batch(forward)).value, forward, forward[i])
  {
    U.BatchActs(thoughts, forward, |forward|);
    var after, m := Mutated(thoughts, Batch(forward)).value, forward[i];
    var found := Lookup(thoughts, m.id);
    assert U.On(m, found).Gives? && Lookup(after, m.id) == Some(U.On(m, found).thought);
    LookedUpIsOnBoard(after, m.id);
    if found.Some? { LookedUpIsOnBoard(thoughts, m.id); }
    forall o | o in Retained(m)
      ensures Seen(thoughts, after, forward, o)
    {
      if m.AddThought? && found.Some? { assert Reuses(thoughts, forward[i], o); }
    }
  }

  lemma CreationSeen(thoughts: seq<Entry>, forward: seq<Mutation>)
    requires U.AllAdd(forward) && Mutated(thoughts, Batch(forward)).Some?
    ensures AllSeen(thoughts, Mutated(thoughts, Batch(forward)).value, forward, forward)
  {
    U.AddedAreDistinct(thoughts, forward, |forward|);
    AllPayloads(thoughts, forward);
  }

  /** What is taken from a source is what the board has. */
  lemma MatchedIsOnBoard(thoughts: seq<Entry>, id: ThoughtId, content: string, annotations: seq<Annotation>)
    requires Matches(thoughts, id, content, annotations)
    ensures Occurrences(annotations) <= OnBoard(thoughts)
  {
    LookedUpIsOnBoard(thoughts, id);
  }

  lemma ReflowSeen(thoughts: seq<Entry>, edits: seq<Rewrite>)
    requires ReflowPlan(thoughts, edits).Perform?
    requires Mutated(thoughts, Batch(ReflowPlan(thoughts, edits).forward)).Some?
    ensures var plan := ReflowPlan(thoughts, edits);
            var after := Mutated(thoughts, Batch(plan.forward)).value;
            AllSeen(thoughts, after, plan.forward, plan.forward) && AllSeen(thoughts, after, plan.forward, plan.inverse)
  {
    var plan := ReflowPlan(thoughts, edits);
    var after := Mutated(thoughts, Batch(plan.forward)).value;
    assert forall i :: 0 <= i < |edits| ==> EditIds(edits)[i] == plan.forward[i].id;
    forall i | 0 <= i < |edits|
      ensures SeenOf(thoughts, after, plan.forward, plan.forward[i])
      ensures SeenOf(thoughts, after, plan.forward, plan.inverse[i])
    {
      SeparatePayloads(thoughts, plan.forward, i);
      assert Retained(plan.inverse[i]) == Retained(plan.forward[i]);
    }
  }

  lemma SplitSeen(thoughts: seq<Entry>, edit: Rewrite, newId: ThoughtId, content: string, annotations: seq<Annotation>,
                  at: Timestamp)
    requires SplitPlan(thoughts, edit, newId, content, annotations, at).Perform?
    requires Mutated(thoughts, Batch(SplitPlan(thoughts, edit, newId, content, annotations, at).forward)).Some?
    ensures var plan := SplitPlan(thoughts, edit, newId, content, annotations, at);
            var after := Mutated(thoughts, Batch(plan.forward)).value;
            AllSeen(thoughts, after, plan.forward, plan.forward) && AllSeen(thoughts, after, plan.forward, plan.inverse)
  {
    var plan := SplitPlan(thoughts, edit, newId, content, annotations, at);
    U.SplitIsSeparate(thoughts, edit, newId, content, annotations, at);
    SeparatePayloads(thoughts, plan.forward, 0);
    SeparatePayloads(thoughts, plan.forward, 1);
    assert Retained(plan.inverse[0]) == Retained(plan.forward[1]);
    assert Retained(plan.inverse[1]) == Retained(plan.forward[0]);
  }

  lemma MergeSeen(thoughts: seq<Entry>, ids: seq<ThoughtId>, content: string, annotations: seq<Annotation>,
                  at: Timestamp)
    requires MergePlan(thoughts, ids, content, annotations, at).Perform?
    requires Mutated(thoughts, Batch(MergePlan(thoughts, ids, content, annotations, at).forward)).Some?
    ensures var plan := MergePlan(thoughts, ids, content, annotations, at);
            var after := Mutated(thoughts, Batch(plan.forward)).value;
            AllSeen(thoughts, after, plan.forward, plan.forward) && AllSeen(thoughts, after, plan.forward, plan.inverse)
  {
    var plan := MergePlan(thoughts, ids, content, annotations, at);
    var after := Mutated(thoughts, Batch(plan.forward)).value;
    MergeIsSeparate(thoughts, ids, content, annotations, at);
    AllPayloads(thoughts, plan.forward);
    forall i | 0 <= i < |ids|
      ensures SeenOf(thoughts, after, plan.forward, plan.inverse[i])
    {
      MergeInverse(thoughts, ids, content, annotations, at, i);
      assert SeenOf(thoughts, after, plan.forward, plan.forward[if i + 1 < |ids| then i + 1 else 0]);
    }
  }

  lemma AllPayloads(thoughts: seq<Entry>, forward: seq<Mutation>)
    requires U.Separate(forward) && Mutated(thoughts, Batch(forward)).Some?
    ensures AllSeen(thoughts, Mutated(thoughts, Batch(forward)).value, forward, forward)
  {
    forall i | 0 <= i < |forward|
      ensures SeenOf(thoughts, Mutated(thoughts, Batch(forward)).value, forward, forward[i])
    {
      SeparatePayloads(thoughts, forward, i);
    }
  }

  lemma MergeIsSeparate(thoughts: seq<Entry>, ids: seq<ThoughtId>, content: string, annotations: seq<Annotation>,
                        at: Timestamp)
    requires MergePlan(thoughts, ids, content, annotations, at).Perform?
    ensures var forward := MergePlan(thoughts, ids, content, annotations, at).forward;
            |forward| == |ids| && U.Separate(forward)
  {
    MergeIds(thoughts, ids, content, annotations, at);
  }

  lemma MergeIds(thoughts: seq<Entry>, ids: seq<ThoughtId>, content: string, annotations: seq<Annotation>,
                 at: Timestamp)
    requires MergePlan(thoughts, ids, content, annotations, at).Perform?
    ensures var forward := MergePlan(thoughts, ids, content, annotations, at).forward;
            |forward| == |ids| && forall i :: 0 <= i < |ids| ==> U.HasId(forward[i]) && forward[i].id == ids[i]
  {
  }

  lemma MergeInverse(thoughts: seq<Entry>, ids: seq<ThoughtId>, content: string, annotations: seq<Annotation>,
                     at: Timestamp, i: nat)
    requires MergePlan(thoughts, ids, content, annotations, at).Perform? && i < |ids|
    ensures var plan := MergePlan(thoughts, ids, content, annotations, at);
            && |plan.inverse| == |plan.forward| == |ids|
            && Retained(plan.inverse[i]) == Retained(plan.forward[if i + 1 < |ids| then i + 1 else 0])
  {
  }

  /** The deletions of an export carry what the board has; its reference is on the board, or reused an identity. */
  lemma ExportSeen(board: Board, sources: seq<Source>, reference: Creation, at: Timestamp)
    requires ExportPlan(board, sources, reference, at).Perform?
    requires Mutated(board.thoughts, Batch(ExportPlan(board, sources, reference, at).forward)).Some?
    ensures var plan := ExportPlan(board, sources, reference, at);
            var after := Mutated(board.thoughts, Batch(plan.forward)).value;
            && AllSeen(board.thoughts, after, plan.forward, plan.forward)
            && AllSeen(board.thoughts, after, plan.forward, plan.inverse)
  {
    var plan := ExportPlan(board, sources, reference, at);
    var after, n := Mutated(board.thoughts, Batch(plan.forward)).value, |sources|;
    forall i | 0 <= i < n
      ensures SeenOf(board.thoughts, after, plan.forward, plan.forward[i])
    {
      MatchedIsOnBoard(board.thoughts, sources[i].id, sources[i].content, sources[i].annotations);
      assert Retained(plan.forward[i]) == Occurrences(sources[i].annotations);
    }
    ReferenceSeen(board, sources, reference, at);
    assert Retained(plan.inverse[0]) == Retained(plan.forward[n]);
    forall k | 0 <= k <= n
      ensures SeenOf(board.thoughts, after, plan.forward, plan.inverse[k])
    {
      if k > 0 {
        var source := sources[k - 1];
        MatchedIsOnBoard(board.thoughts, source.id, source.content, source.annotations);
        assert Retained(plan.inverse[k]) == Occurrences(source.annotations);
      }
    }
  }

  lemma ReferenceSeen(board: Board, sources: seq<Source>, reference: Creation, at: Timestamp)
    requires ExportPlan(board, sources, reference, at).Perform?
    requires Mutated(board.thoughts, Batch(ExportPlan(board, sources, reference, at).forward)).Some?
    ensures var plan := ExportPlan(board, sources, reference, at);
            |plan.forward| == |sources| + 1 && plan.forward[|sources|].AddThought? &&
            SeenOf(board.thoughts, Mutated(board.thoughts, Batch(plan.forward)).value, plan.forward,
                   plan.forward[|sources|])
  {
    var plan, n := ExportPlan(board, sources, reference, at), |sources|;
    var after, add := Mutated(board.thoughts, Batch(plan.forward)).value, plan.forward[n];
    if Lookup(board.thoughts, reference.id).Some? {
      assert forall o :: o in Retained(add) ==> Reuses(board.thoughts, plan.forward[n], o);
    } else {
      var before := MutatedBy(board.thoughts, Batch(plan.forward), n);
      assert after == Mutated(before.value, Batch(plan.forward).mutations[n]).value == Single(before.value, add).value;
      DeletionsKeepMissing(board.thoughts, plan.forward, n, reference.id);
      LookupAfterPut(before.value, add.id, add.thought.(deletedAt := None), add.id);
      LookedUpIsOnBoard(after, add.id);
    }
  }

  /** Deleting creates nothing. */
  lemma {:induction false} DeletionsKeepMissing(thoughts: seq<Entry>, batch: seq<Mutation>, n: nat, id: ThoughtId)
    requires n <= |batch| && MutatedBy(thoughts, Batch(batch), n).Some? && Lookup(thoughts, id).None?
    requires forall i :: 0 <= i < n ==> batch[i].SetDeletionExact?
    ensures Lookup(MutatedBy(thoughts, Batch(batch), n).value, id).None?
  {
    if n > 0 {
      DeletionsKeepMissing(thoughts, batch, n - 1, id);
      var before := MutatedBy(thoughts, Batch(batch), n - 1).value;
      assert Batch(batch).mutations[n - 1] == batch[n - 1];
      U.SingleActs(before, batch[n - 1], id);
    }
  }

  lemma NothingRetained(batch: seq<Mutation>)
    requires forall i :: 0 <= i < |batch| ==>
      batch[i].SetDeletion? || batch[i].SetName? || batch[i].SetPresentation? || batch[i].MoveThought?
      || batch[i].ChangeSeparator?
    ensures forall i :: 0 <= i < |batch| ==> Retained(batch[i]) == {}
  {
  }

  /** Whatever a plan retains was on the board before, or is there after it, or reused an identity. */
  lemma PlanSeen(board: Board, action: Action)
    requires Plans(action) && PlanOf(board, action).Perform?
    requires Mutated(board.thoughts, Batch(PlanOf(board, action).forward)).Some?
    ensures var plan := PlanOf(board, action);
            var after := Mutated(board.thoughts, Batch(plan.forward)).value;
            && AllSeen(board.thoughts, after, plan.forward, plan.forward)
            && AllSeen(board.thoughts, after, plan.forward, plan.inverse)
  {
    var plan := PlanOf(board, action);
    if action.Create? || action.Duplicate? {
      CreationSeen(board.thoughts, plan.forward);
      NothingRetained(plan.inverse);
    } else if action.Reflow? {
      ReflowSeen(board.thoughts, action.edits);
    } else if action.Split? {
      SplitSeen(board.thoughts, action.edit, action.newId, action.content, action.annotations, action.at);
    } else if action.Merge? {
      MergeSeen(board.thoughts, action.ids, action.content, action.annotations, action.at);
    } else if action.ReplaceExported? {
      ExportSeen(board, action.sources, action.reference, action.at);
    } else {
      NothingRetained(plan.forward);
      NothingRetained(plan.inverse);
    }
  }

  // ---------------------------------------------------------------------------------------------
  // Steps

  /** The accepted operation of a step. */
  predicate Records(s: State, action: Action, o: Outcome) {
    Plans(action) && o.ok && PlanOf(s.board, action).Perform?
  }

  /** An accepted step that creates a thought under an identity in use, with numbers above the counters after it. */
  predicate LosesNumbers(s: State, input: Input, o: Outcome) {
    match input
    case Act(action, _) =>
      Records(s, action, o) && Misses(s.board.thoughts, o.state.board.counters, PlanOf(s.board, action).forward)
    case Shot(operation, _) =>
      o.ok && MissesAt(s.board.thoughts, o.state.board.counters, operation.forward)
  }

  lemma SeenIsDominated(before: seq<Entry>, after: seq<Entry>, forward: seq<Mutation>, batch: seq<Mutation>,
                        counters: Counters)
    requires AllSeen(before, after, forward, batch) && !Misses(before, counters, forward)
    requires Dominates(counters, OnBoard(before)) && Dominates(counters, OnBoard(after))
    ensures Dominates(counters, Retained(Batch(batch)))
  {
    forall o | o in Retained(Batch(batch))
      ensures o.ordinal <= Count(counters, o.image)
    {
      var k: nat :| k < |batch| && o in Retained(batch[k]);
      assert SeenOf(before, after, forward, batch[k]);
      if o !in OnBoard(before) && o !in OnBoard(after) {
        var i :| 0 <= i < |forward| && Reuses(before, forward[i], o);
        assert !MissesAt(before, counters, forward[i]);
      }
    }
  }

  lemma MissedIsNotCovered(before: seq<Entry>, counters: Counters, forward: seq<Mutation>)
    requires Misses(before, counters, forward)
    ensures !Dominates(counters, Retained(Batch(forward)))
  {
    var i :| 0 <= i < |forward| && MissesAt(before, counters, forward[i]);
    var o :| o in Occurrences(forward[i].thought.annotations) && o.ordinal > Count(counters, o.image);
    assert o in Retained(forward[i]);
  }

  lemma BatchesCovered(before: seq<Entry>, after: seq<Entry>, forward: seq<Mutation>, inverse: seq<Mutation>,
                       counters: Counters)
    requires AllSeen(before, after, forward, forward) && AllSeen(before, after, forward, inverse)
    requires Dominates(counters, OnBoard(before)) && Dominates(counters, OnBoard(after))
    ensures (Dominates(counters, Retained(Batch(forward))) && Dominates(counters, Retained(Batch(inverse)))) <==>
            !Misses(before, counters, forward)
  {
    if Misses(before, counters, forward) {
      MissedIsNotCovered(before, counters, forward);
    } else {
      SeenIsDominated(before, after, forward, forward, counters);
      SeenIsDominated(before, after, forward, inverse, counters);
    }
  }

  /** Histories that shrink, and counters that rise, keep what is covered. */
  lemma StillCovered(s: State, t: State)
    requires HistoryCovered(s) && AtMost(s.board.counters, t.board.counters)
    requires forall operation :: operation in t.history ==> operation in s.history || operation in s.deferred.Values
    requires forall q :: q in t.deferred ==> q in s.deferred && t.deferred[q] == s.deferred[q]
    ensures HistoryCovered(t)
  {
    forall i | 0 <= i < |t.history|
      ensures OperationCovered(t.board.counters, t.history[i])
    {
      assert t.history[i] in t.history;
      assert OperationCovered(s.board.counters, t.history[i]);
    }
  }

  lemma PerformedCovers(s: State, action: Action, refused: bool)
    requires Dominated(s) && HistoryCovered(s) && Plans(action)
    ensures var o := Performed(s, PlanOf(s.board, action), refused);
            HistoryCovered(o.state) <==> !LosesNumbers(s, Act(action, refused), o)
  {
    var plan := PlanOf(s.board, action);
    if plan.Perform? && Mutated(s.board.thoughts, Batch(plan.forward)).Some? { PlanSeen(s.board, action); }
    PlanCovers(s, plan, refused);
  }

  predicate ShowsAll(board: Board, plan: Plan) {
    plan.Perform? && Mutated(board.thoughts, Batch(plan.forward)).Some? ==>
      var after := Mutated(board.thoughts, Batch(plan.forward)).value;
      && AllSeen(board.thoughts, after, plan.forward, plan.forward)
      && AllSeen(board.thoughts, after, plan.forward, plan.inverse)
  }

  lemma PlanCovers(s: State, plan: Plan, refused: bool)
    requires Dominated(s) && HistoryCovered(s) && ShowsAll(s.board, plan)
    ensures var o := Performed(s, plan, refused);
            HistoryCovered(o.state) <==>
              !(plan.Perform? && o.ok && Misses(s.board.thoughts, o.state.board.counters, plan.forward))
  {
    var o := Performed(s, plan, refused);
    PerformedRises(s, plan, refused);
    if plan.Perform? && o.ok {
      RecordedHistory(s, plan, refused);
      EntryCovered(s.board, plan, o.state.board.counters);
      ExtendedCovers(s, o.state, Operation(s.highest + 1, Batch(plan.forward), Batch(plan.inverse)));
    } else {
      QuietHistory(s, plan, refused);
      StillCovered(s, o.state);
    }
  }

  /** The new entry is covered exactly if the plan loses no numbers. */
  lemma EntryCovered(board: Board, plan: Plan, counters: Counters)
    requires Covered(board) && plan.Perform? && ShowsAll(board, plan)
    requires ApplyMutation(board, Batch(plan.forward)).Some?
    requires counters == ApplyMutation(board, Batch(plan.forward)).value.counters
    ensures (&& Dominates(counters, Retained(Batch(plan.forward)))
             && Dominates(counters, Retained(Batch(plan.inverse)))) <==>
            !Misses(board.thoughts, counters, plan.forward)
  {
    var after := Mutated(board.thoughts, Batch(plan.forward)).value;
    CheckedIsCovered(board.counters, after, board.lastDurable);
    BatchesCovered(board.thoughts, after, plan.forward, plan.inverse, counters);
  }

  lemma RecordedHistory(s: State, plan: Plan, refused: bool)
    requires plan.Perform? && Performed(s, plan, refused).ok
    ensures var t := Performed(s, plan, refused).state;
            && ApplyMutation(s.board, Batch(plan.forward)).Some?
            && t.board.counters == ApplyMutation(s.board, Batch(plan.forward)).value.counters
            && t.history == Take(s.history, s.cursor) +
                            [Operation(s.highest + 1, Batch(plan.forward), Batch(plan.inverse))]
            && t.deferred == s.deferred
  {
  }

  lemma QuietHistory(s: State, plan: Plan, refused: bool)
    requires !(plan.Perform? && Performed(s, plan, refused).ok)
    ensures var t := Performed(s, plan, refused).state;
            t.history == s.history && t.deferred == s.deferred && t.board == s.board
  {
  }

  /** With one more entry, the history is covered exactly if the entry is. */
  lemma ExtendedCovers(s: State, t: State, operation: Operation)
    requires HistoryCovered(s) && AtMost(s.board.counters, t.board.counters)
    requires t.history == Take(s.history, s.cursor) + [operation] && t.deferred == s.deferred
    ensures HistoryCovered(t) <==> OperationCovered(t.board.counters, operation)
  {
    var n := |t.history| - 1;
    assert t.history[n] == operation;
    assert forall i :: 0 <= i < n ==> t.history[i] == s.history[i];
  }

  predicate KeepsHistory(s: State, t: State) {
    t.deferred == s.deferred && forall operation :: operation in t.history ==> operation in s.history
  }

  lemma EditedHistory(s: State, edit: Rewrite, refused: bool)
    ensures KeepsHistory(s, Edited(s, edit, refused).state)
  {
  }

  lemma ReplayedHistory(s: State, scope: Scope, undo: bool, refused: bool)
    ensures KeepsHistory(s, HistoryMoved(s, scope, undo, refused).state)
  {
  }

  lemma KeptHistory(s: State, action: Action, refused: bool)
    requires !Plans(action) && !Persists(action) && !action.StageRemoval? && !action.ClipboardResult?
    ensures KeepsHistory(s, Reduce(s, action, refused).state)
  {
    if !Stopped(s, action) {
      if action.Edit? {
        EditedHistory(s, action.edit, refused);
      } else if action.Undo? || action.Redo? {
        ReplayedHistory(s, action.scope, action.Undo?, refused);
      } else {
        OthersLeaveItems(s, action, refused);
      }
    }
  }

  lemma StagedCovers(s: State, ids: seq<ThoughtId>, at: Timestamp)
    requires HistoryCovered(s)
    ensures HistoryCovered(StagedRemoval(s, ids, at).state)
  {
    NothingRetained(Deletions(ids, Some(at)));
    NothingRetained(Deletions(ids, None));
  }

  lemma ReceiptCovers(s: State, action: Action, refused: bool)
    requires Dominated(s) && HistoryCovered(s) && Persists(action)
    ensures HistoryCovered(Persistence(s, action, refused).state)
  {
    PersistenceRises(s, action, refused);
    var t := Persistence(s, action, refused).state;
    assert forall operation :: operation in t.history ==> operation in s.history || operation in s.deferred.Values;
    StillCovered(s, t);
  }

  lemma CutCovers(s: State, request: RequestId, written: bool, refused: bool)
    requires Dominated(s) && HistoryCovered(s)
    ensures HistoryCovered(ClipboardFinished(s, request, written, refused).state)
  {
    if request in s.clipboard {
      var entry, rest := s.clipboard[request], s.(clipboard := s.clipboard - {request});
      PerformedCovers(rest, Delete(SourceIds(entry.sources), entry.at), refused);
    }
  }

  lemma OthersCover(s: State, action: Action, refused: bool)
    requires Dominated(s) && HistoryCovered(s) && !Plans(action) && !Persists(action)
    ensures HistoryCovered(Reduce(s, action, refused).state)
  {
    if action.StageRemoval? {
      StagedCovers(s, action.ids, action.at);
    } else if action.ClipboardResult? {
      CutCovers(s, action.request, action.written && !s.durability.Failed?, refused);
    } else {
      KeptHistory(s, action, refused);
      HandlersRise(s, action, refused);
      StillCovered(s, Reduce(s, action, refused).state);
    }
  }

  lemma ShotCovers(s: State, operation: Operation, refused: bool)
    requires Dominated(s) && HistoryCovered(s)
    ensures var o := Step(s, Shot(operation, refused));
            HistoryCovered(o.state) <==> !LosesNumbers(s, Shot(operation, refused), o)
  {
    var o := Step(s, Shot(operation, refused));
    if Captured(s, operation, refused).Some? {
      AppliedRises(s, operation.forward);
      ShotPayload(s.board, operation.forward);
      ExtendedCovers(s, o.state, operation);
    }
  }

  lemma ShotPayload(board: Board, add: Mutation)
    requires add.AddThought? && ApplyMutation(board, add).Some?
    ensures var counters := ApplyMutation(board, add).value.counters;
            Dominates(counters, Retained(add)) <==> !MissesAt(board.thoughts, counters, add)
  {
    var after := Mutated(board.thoughts, add).value;
    CheckedIsCovered(board.counters, after, board.lastDurable);
    if Lookup(board.thoughts, add.id).None? {
      LookupAfterPut(board.thoughts, add.id, add.thought.(deletedAt := None), add.id);
      LookedUpIsOnBoard(after, add.id);
    }
  }

  /**
   * A step keeps every retained operation covered exactly unless it creates a thought under an identity in use
   * whose new numbers the counters do not reach.
   */
  lemma RetainedStayCovered(s: State, input: Input)
    requires Inv(s) && Dominated(s) && HistoryCovered(s)
    ensures HistoryCovered(Step(s, input).state) <==> !LosesNumbers(s, input, Step(s, input))
  {
    match input
    case Act(action, refused) =>
      if Plans(action) {
        PlansCover(s, action, refused);
      } else if Persists(action) {
        PersistsCover(s, action, refused);
      } else {
        OthersCover(s, action, refused);
      }
    case Shot(operation, refused) => ShotCovers(s, operation, refused);
  }

  lemma PlansCover(s: State, action: Action, refused: bool)
    requires Dominated(s) && HistoryCovered(s) && Plans(action)
    ensures HistoryCovered(Reduce(s, action, refused).state) <==>
            !LosesNumbers(s, Act(action, refused), Reduce(s, action, refused))
  {
    if !Stopped(s, action) { PerformedCovers(s, action, refused); }
  }

  lemma PersistsCover(s: State, action: Action, refused: bool)
    requires Dominated(s) && HistoryCovered(s) && Persists(action)
    ensures HistoryCovered(Reduce(s, action, refused).state)
  {
    if !Stopped(s, action) { ReceiptCovers(s, action, refused); }
  }

  // ---------------------------------------------------------------------------------------------
  // Runs

  predicate KeepsNumbers(s: State, input: Input) { !LosesNumbers(s, input, Step(s, input)) }

  predicate AlwaysKeepsNumbers(s: State, inputs: seq<Input>) {
    forall i {:trigger KeepsNumbers(After(s, inputs[..i]), inputs[i])} :: 0 <= i < |inputs| ==>
      KeepsNumbers(After(s, inputs[..i]), inputs[i])
  }

  lemma AllCovered(s: State, input: Input)
    requires Inv(s) && Dominated(s) && HistoryCovered(s) && KeepsNumbers(s, input)
    ensures var t := Step(s, input).state; Inv(t) && Dominated(t) && HistoryCovered(t)
  {
    GoodSteps(s, input);
    StepRises(s, input);
    RetainedStayCovered(s, input);
  }

  /** Along every such run the counters cover the board, all revisions, the board history and the staged operation. */
  lemma {:induction false} RetainedAlwaysCovered(s: State, inputs: seq<Input>)
    requires Inv(s) && Dominated(s) && HistoryCovered(s) && AlwaysKeepsNumbers(s, inputs)
    ensures var t := After(s, inputs); Inv(t) && Dominated(t) && HistoryCovered(t)
  {
    if inputs != [] {
      var n := |inputs| - 1;
      forall i | 0 <= i < n
        ensures KeepsNumbers(After(s, inputs[..n][..i]), inputs[..n][i])
      {
        assert inputs[..n][..i] == inputs[..i] && KeepsNumbers(After(s, inputs[..i]), inputs[i]);
      }
      RetainedAlwaysCovered(s, inputs[..n]);
      AllCovered(After(s, inputs[..n]), inputs[n]);
    }
  }

  /** A session starts covered. */
  lemma InitialIsCovered(thoughts: seq<Entry>, counters: Counters, lastDurable: nat)
    requires Checked(counters, thoughts, lastDurable).Some?
    ensures var s := Initial(Checked(counters, thoughts, lastDurable).value);
            Inv(s) && Dominated(s) && HistoryCovered(s)
  {
    InitialIsDominated(thoughts, counters, lastDurable);
    InitialIsSound(Checked(counters, thoughts, lastDurable).value);
  }

  // ---------------------------------------------------------------------------------------------
  // The exception occurs

  const Waiting1: Annotation := Annotation(0, 1, Attachment(None, true, "p"))
  const Numbered1: Annotation := Annotation(0, 1, Attachment(Some(1), true, "p"))
  const Reused: Creation := Creation(1, "b", [Waiting1], false, None, 0)

  function Old(deletedAt: Option<Timestamp>): seq<Entry> { [Entry(1, Thought("a", [], None, 0, deletedAt))] }

  lemma ReusedPlan()
    ensures Additions(Counters(0, 0), [Reused]) ==
            Some((Counters(1, 0), [AddThought(1, Thought("b", [Numbered1], None, 0, None))]))
  {
    assert Renewed(Waiting1) == Waiting1 && AllRenewed([Waiting1]) == [Waiting1];
    assert Waiting([Waiting1], true, 0) == 0 && Waiting([Waiting1], true, 1) == 1;
    assert Waiting([Waiting1], false, 0) == 0 && Waiting([Waiting1], false, 1) == 0;
    assert AllNumbered(Counters(0, 0), [Waiting1]) == [Numbered1];
    assert [Reused][..|[Reused]| - 1] == [] && [Reused][|[Reused]| - 1] == Reused;
    assert Additions(Counters(0, 0), []) == Some((Counters(0, 0), []));
    var add := AddThought(1, Thought("b", [Numbered1], None, 0, None));
    assert [] + [add] == [add];
  }

  lemma ReusedMutates()
    ensures var add := AddThought(1, Thought("b", [Numbered1], None, 0, None));
            Mutated(Old(Some(0)), Batch([add])) == Some(Old(None))
    ensures Checked(Counters(0, 0), Old(None), 0) == Some(Board(Old(None), Counters(0, 0), 0))
  {
    var add := AddThought(1, Thought("b", [Numbered1], None, 0, None));
    var former := Thought("a", [], None, 0, None);
    assert Old(Some(0))[1..] == [] && Put(Old(Some(0)), 1, former) == [Entry(1, former)] + [] == Old(None);
    assert MutatedBy(Old(Some(0)), Batch([add]), 0) == Some(Old(Some(0)));
    assert Mutated(Old(Some(0)), add) == Single(Old(Some(0)), add) == Some(Old(None));
    assert UniqueAt(Old(None), 0);
    assert ObservedAll(Counters(0, 0), Old(None), 0) == Counters(0, 0);
  }

  lemma ReusedIsPerformed(s: State)
    requires s == Initial(Board(Old(Some(0)), Counters(0, 0), 0))
    ensures Reduce(s, Create([Reused], 0), false) ==
            Performed(s, CreationPlan(Counters(0, 0), [Reused], 0), false)
  {
  }

  /** One creation: the history holds image 1, while the counter still stands at 0 and will give 1 out again. */
  lemma NumbersAreLost()
    ensures var s := Initial(Board(Old(Some(0)), Counters(0, 0), 0));
            var t := Reduce(s, Create([Reused], 0), false).state;
            && HistoryCovered(s) && |t.history| == 1 && Occurrence(true, 1) in Retained(t.history[0].forward)
            && t.board.counters == Counters(0, 0) && !HistoryCovered(t)
  {
    var s := Initial(Board(Old(Some(0)), Counters(0, 0), 0));
    var plan := CreationPlan(Counters(0, 0), [Reused], 0);
    ReusedPlan();
    ReusedMutates();
    ReusedIsPerformed(s);
    var t := Performed(s, plan, false).state;
    assert t.history == [Operation(1, Batch(plan.forward), Batch(plan.inverse))];
    var o := Occurrence(true, 1);
    assert OccurrenceOf([Numbered1][0]) == o && o in Occurrences([Numbered1]);
    assert o in Retained(plan.forward[0]) && o in Retained(t.history[0].forward);
    assert !Dominates(t.board.counters, Retained(t.history[0].forward));
  }
}
