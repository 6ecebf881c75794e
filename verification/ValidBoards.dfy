/**
 * Boards that pass validation: numbered attachments, used once among live thoughts. Which steps keep a board valid,
 * exactly, and what a creation may rely on. All mutations are validated but one kind: the replay of an edit takes the
 * recorded annotations as they are.
 */
module ValidBoards {
  import opened Options
  import opened AttachmentNumbering
  import opened SessionBoards
  import opened Reducer
  import opened Durability
  import opened Ordinals

  // ---------------------------------------------------------------------------------------------
  // Uniqueness, thought by thought

  predicate DistinctEntries(thoughts: seq<Entry>) {
    forall i, j :: 0 <= i < j < |thoughts| ==> thoughts[i].id != thoughts[j].id
  }

  function NumbersAt(thoughts: seq<Entry>, i: nat): set<Occurrence>
    requires i < |thoughts|
  {
    Occurrences(thoughts[i].thought.annotations)
  }

  predicate Inner(annotations: seq<Annotation>) { Unique(annotations, {}) }

  predicate Disjoint(thoughts: seq<Entry>, i: nat, j: nat)
    requires i < |thoughts| && j < |thoughts|
  {
    Live(thoughts[i].thought) && Live(thoughts[j].thought) ==> NumbersAt(thoughts, i) !! NumbersAt(thoughts, j)
  }

  /** Each live thought is numbered without repetition, and no two share a number. */
  predicate Pairwise(thoughts: seq<Entry>) {
    && (forall i :: 0 <= i < |thoughts| && Live(thoughts[i].thought) ==> Inner(thoughts[i].thought.annotations))
    && (forall i, j :: 0 <= i < j < |thoughts| ==> Disjoint(thoughts, i, j))
  }

  lemma UniqueParts(annotations: seq<Annotation>, taken: set<Occurrence>)
    ensures Unique(annotations, taken) <==> (Inner(annotations) && Occurrences(annotations) !! taken)
  {
    if Inner(annotations) && Occurrences(annotations) !! taken {
      forall i | 0 <= i < |annotations| && Assigned(annotations[i])
        ensures OccurrenceOf(annotations[i]) !in taken
      {
        assert OccurrenceOf(annotations[i]) in Occurrences(annotations);
      }
    }
  }

  lemma {:induction false} TakenIsUnion(thoughts: seq<Entry>, n: nat, o: Occurrence)
    requires n <= |thoughts|
    ensures o in Taken(thoughts, n) <==>
            exists i: nat :: i < n && Live(thoughts[i].thought) && o in NumbersAt(thoughts, i)
  {
    if n > 0 { TakenIsUnion(thoughts, n - 1, o); }
  }

  lemma UniqueIsPairwise(thoughts: seq<Entry>)
    ensures UniqueLive(thoughts) <==> Pairwise(thoughts)
  {
    forall i | 0 <= i < |thoughts|
      ensures UniqueAt(thoughts, i) <==>
              (Live(thoughts[i].thought) ==>
                 Inner(thoughts[i].thought.annotations) && forall j :: 0 <= j < i ==> Disjoint(thoughts, j, i))
    {
      UniqueAtParts(thoughts, i);
    }
    assert forall i, j :: 0 <= i < j < |thoughts| && !Live(thoughts[j].thought) ==> Disjoint(thoughts, i, j);
  }

  lemma UniqueAtParts(thoughts: seq<Entry>, i: nat)
    requires i < |thoughts|
    ensures UniqueAt(thoughts, i) <==>
            (Live(thoughts[i].thought) ==>
               Inner(thoughts[i].thought.annotations) && forall j :: 0 <= j < i ==> Disjoint(thoughts, j, i))
  {
    UniqueParts(thoughts[i].thought.annotations, Taken(thoughts, i));
    forall o
      ensures o in Taken(thoughts, i) <==>
              exists j: nat :: j < i && Live(thoughts[j].thought) && o in NumbersAt(thoughts, j)
    {
      TakenIsUnion(thoughts, i, o);
    }
    if Live(thoughts[i].thought) && forall j :: 0 <= j < i ==> Disjoint(thoughts, j, i) {
      forall o | o in Taken(thoughts, i)
        ensures o !in NumbersAt(thoughts, i)
      {
        var j: nat :| j < i && Live(thoughts[j].thought) && o in NumbersAt(thoughts, j);
        assert Disjoint(thoughts, j, i);
      }
    }
    if NumbersAt(thoughts, i) !! Taken(thoughts, i) {
      forall j | 0 <= j < i
        ensures Disjoint(thoughts, j, i)
      {
        if Live(thoughts[j].thought) { assert NumbersAt(thoughts, j) <= Taken(thoughts, i); }
      }
    }
  }

  // ---------------------------------------------------------------------------------------------
  // Valid boards

  predicate Valid(thoughts: seq<Entry>) { Durable(thoughts) && UniqueLive(thoughts) && DistinctEntries(thoughts) }

  /** Replacing a thought happens in its place; a new one goes last. */
  lemma {:induction false} PutAtPlace(thoughts: seq<Entry>, id: ThoughtId, thought: Thought) returns (p: nat)
    requires Lookup(thoughts, id).Some?
    ensures p < |thoughts| && thoughts[p] == Entry(id, Lookup(thoughts, id).value)
    ensures Put(thoughts, id, thought) == thoughts[p := Entry(id, thought)]
  {
    if thoughts[0].id == id {
      p := 0;
    } else {
      var q := PutAtPlace(thoughts[1..], id, thought);
      p := q + 1;
    }
  }

  lemma {:induction false} LookupMissing(thoughts: seq<Entry>, id: ThoughtId)
    ensures Lookup(thoughts, id).None? <==> forall i :: 0 <= i < |thoughts| ==> thoughts[i].id != id
  {
    if thoughts != [] {
      LookupMissing(thoughts[1..], id);
      assert thoughts == [thoughts[0]] + thoughts[1..];
    }
  }

  lemma PutKeepsDistinct(thoughts: seq<Entry>, id: ThoughtId, thought: Thought)
    requires DistinctEntries(thoughts)
    ensures DistinctEntries(Put(thoughts, id, thought))
  {
    if Lookup(thoughts, id).Some? {
      var p := PutAtPlace(thoughts, id, thought);
    } else {
      PutAppends(thoughts, id, thought);
      LookupMissing(thoughts, id);
    }
  }

  lemma SingleKeepsDistinct(thoughts: seq<Entry>, mutation: Mutation)
    requires DistinctEntries(thoughts) && !mutation.Batch? && Single(thoughts, mutation).Some?
    ensures DistinctEntries(Single(thoughts, mutation).value)
  {
    if !mutation.ChangeSeparator? {
      forall thought
        ensures DistinctEntries(Put(thoughts, mutation.id, thought))
      {
        PutKeepsDistinct(thoughts, mutation.id, thought);
      }
    }
  }

  lemma {:induction false} MutationKeepsDistinct(thoughts: seq<Entry>, mutation: Mutation)
    requires DistinctEntries(thoughts) && Mutated(thoughts, mutation).Some?
    ensures DistinctEntries(Mutated(thoughts, mutation).value)
    decreases mutation, Steps(mutation)
  {
    if mutation.Batch? {
      BatchKeepsDistinct(thoughts, mutation, |mutation.mutations|);
    } else {
      SingleKeepsDistinct(thoughts, mutation);
    }
  }

  lemma {:induction false} BatchKeepsDistinct(thoughts: seq<Entry>, batch: Mutation, n: nat)
    requires DistinctEntries(thoughts) && batch.Batch? && n <= |batch.mutations| && MutatedBy(thoughts, batch, n).Some?
    ensures DistinctEntries(MutatedBy(thoughts, batch, n).value)
    decreases batch, n
  {
    if n > 0 {
      BatchKeepsDistinct(thoughts, batch, n - 1);
      MutationKeepsDistinct(MutatedBy(thoughts, batch, n - 1).value, batch.mutations[n - 1]);
    }
  }

  lemma AppliedIsValid(board: Board, mutation: Mutation)
    requires Valid(board.thoughts) && ApplyMutation(board, mutation).Some?
    ensures Valid(ApplyMutation(board, mutation).value.thoughts)
  {
    MutationKeepsDistinct(board.thoughts, mutation);
  }

  // ---------------------------------------------------------------------------------------------
  // Boards whose live thoughts come from a valid one

  lemma {:induction false} LookupAt(thoughts: seq<Entry>, i: nat)
    requires DistinctEntries(thoughts) && i < |thoughts|
    ensures Lookup(thoughts, thoughts[i].id) == Some(thoughts[i].thought)
  {
    if i > 0 { LookupAt(thoughts[1..], i - 1); }
  }

  lemma {:induction false} PlaceOf(thoughts: seq<Entry>, id: ThoughtId) returns (p: nat)
    requires Lookup(thoughts, id).Some?
    ensures p < |thoughts| && thoughts[p] == Entry(id, Lookup(thoughts, id).value)
  {
    p := PutAtPlace(thoughts, id, Lookup(thoughts, id).value);
  }

  /** The thought is on the board, live, and with these annotations. */
  predicate ComesFrom(before: seq<Entry>, entry: Entry) {
    LiveAt(before, entry.id) && Lookup(before, entry.id).value.annotations == entry.thought.annotations
  }

  /** Live thoughts of one valid board, in any order, are apart. */
  lemma LiveAreApart(before: seq<Entry>, after: seq<Entry>)
    requires Valid(before) && DistinctEntries(after)
    requires forall i :: 0 <= i < |after| && Live(after[i].thought) ==> ComesFrom(before, after[i])
    ensures Pairwise(after)
  {
    UniqueIsPairwise(before);
    forall i | 0 <= i < |after| && Live(after[i].thought)
      ensures Inner(after[i].thought.annotations)
    {
      var p := PlaceOf(before, after[i].id);
    }
    forall i, j | 0 <= i < j < |after|
      ensures Disjoint(after, i, j)
    {
      if Live(after[i].thought) && Live(after[j].thought) {
        var p := PlaceOf(before, after[i].id);
        var q := PlaceOf(before, after[j].id);
        if p < q { assert Disjoint(before, p, q); } else { assert Disjoint(before, q, p); }
      }
    }
  }

  // ---------------------------------------------------------------------------------------------
  // Replaying a revision

  /** The annotations fit among the other live thoughts. */
  predicate Fits(thoughts: seq<Entry>, id: ThoughtId, annotations: seq<Annotation>) {
    && Inner(annotations)
    && forall i :: 0 <= i < |thoughts| && thoughts[i].id != id && Live(thoughts[i].thought) ==>
         Occurrences(annotations) !! NumbersAt(thoughts, i)
  }

  /** With other annotations in one live thought, a board is valid exactly if they fit. */
  lemma PutIsValid(thoughts: seq<Entry>, id: ThoughtId, thought: Thought)
    requires Valid(thoughts) && LiveAt(thoughts, id) && Live(thought)
    ensures Valid(Put(thoughts, id, thought)) <==> Fits(thoughts, id, thought.annotations)
  {
    var p := PutAtPlace(thoughts, id, thought);
    var after := thoughts[p := Entry(id, thought)];
    PutKeepsDistinct(thoughts, id, thought);
    UniqueIsPairwise(thoughts);
    UniqueIsPairwise(after);
    assert forall i :: 0 <= i < |thoughts| && i != p ==> after[i] == thoughts[i] && thoughts[i].id != id;
    if Fits(thoughts, id, thought.annotations) {
      FitsIsPairwise(thoughts, p, thought);
    } else if Pairwise(after) {
      PairwiseFits(thoughts, p, thought);
    }
  }

  lemma FitsIsPairwise(thoughts: seq<Entry>, p: nat, thought: Thought)
    requires Pairwise(thoughts) && Durable(thoughts) && DistinctEntries(thoughts) && p < |thoughts|
    requires Fits(thoughts, thoughts[p].id, thought.annotations)
    ensures var after := thoughts[p := Entry(thoughts[p].id, thought)]; Pairwise(after) && Durable(after)
  {
    var after := thoughts[p := Entry(thoughts[p].id, thought)];
    forall i, j | 0 <= i < j < |after|
      ensures Disjoint(after, i, j)
    {
      assert Disjoint(thoughts, i, j);
    }
  }

  lemma PairwiseFits(thoughts: seq<Entry>, p: nat, thought: Thought)
    requires p < |thoughts| && Live(thought) && DistinctEntries(thoughts)
    requires Pairwise(thoughts[p := Entry(thoughts[p].id, thought)])
    ensures Fits(thoughts, thoughts[p].id, thought.annotations)
  {
    var after := thoughts[p := Entry(thoughts[p].id, thought)];
    assert after[p].thought == thought;
    forall i | 0 <= i < |thoughts| && thoughts[i].id != thoughts[p].id && Live(thoughts[i].thought)
      ensures Occurrences(thought.annotations) !! NumbersAt(thoughts, i)
    {
      assert after[i] == thoughts[i];
      if i < p { assert Disjoint(after, i, p); } else { assert Disjoint(after, p, i); }
    }
  }

  // ---------------------------------------------------------------------------------------------
  // Steps

  predicate ReplaysEdit(action: Action) { (action.Undo? || action.Redo?) && action.scope.EditorScope? }

  /** The annotations that replaying the next revision of a thought brings back. */
  function ReplayedAnnotations(s: State, id: ThoughtId, undo: bool): seq<Annotation> {
    var next := NextRevision(EditorOf(s, id), undo);
    if next.None? then [] else if undo then next.value.beforeAnnotations else next.value.afterAnnotations
  }

  /** What the code does not check when it replays a revision. */
  predicate ReplayFits(s: State, action: Action)
    requires ReplaysEdit(action)
  {
    Fits(s.board.thoughts, action.scope.id, ReplayedAnnotations(s, action.scope.id, action.Undo?))
  }

  lemma PerformedIsValid(s: State, plan: Plan, refused: bool)
    requires Valid(s.board.thoughts)
    ensures Valid(Performed(s, plan, refused).state.board.thoughts)
  {
    if plan.Perform? && ApplyMutation(s.board, Batch(plan.forward)).Some? {
      AppliedIsValid(s.board, Batch(plan.forward));
    }
  }

  lemma EditedIsValid(s: State, edit: Rewrite, refused: bool)
    requires Valid(s.board.thoughts)
    ensures Valid(Edited(s, edit, refused).state.board.thoughts)
  {
    if Applies(s.board.thoughts, edit) {
      forall thought
        ensures DistinctEntries(Put(s.board.thoughts, edit.id, thought))
      {
        PutKeepsDistinct(s.board.thoughts, edit.id, thought);
      }
    }
  }

  lemma BoardMoveIsValid(s: State, undo: bool, refused: bool)
    requires Valid(s.board.thoughts)
    ensures Valid(HistoryMoved(s, BoardScope, undo, refused).state.board.thoughts)
  {
    if MovedBoard(s, undo).Some? { AppliedIsValid(s.board, ReplayOf(NextOperation(s, undo).value, undo)); }
  }

  lemma EditorMoveIsValid(s: State, id: ThoughtId, undo: bool, refused: bool)
    requires Valid(s.board.thoughts) && HistoryMoved(s, EditorScope(id), undo, refused).ok
    ensures Valid(HistoryMoved(s, EditorScope(id), undo, refused).state.board.thoughts) <==>
            Fits(s.board.thoughts, id, ReplayedAnnotations(s, id, undo))
  {
    var r := NextRevision(EditorOf(s, id), undo).value;
    var found := Lookup(s.board.thoughts, id).value;
    var thought := if undo then found.(content := r.beforeContent, annotations := r.beforeAnnotations)
                   else found.(content := r.afterContent, annotations := r.afterAnnotations);
    PutIsValid(s.board.thoughts, id, thought);
  }

  lemma PersistenceIsValid(s: State, action: Action, refused: bool)
    requires Valid(s.board.thoughts) && Persists(action)
    ensures Valid(Persistence(s, action, refused).state.board.thoughts)
  {
    if action.PersistenceCommitted? && action.sequence in s.deferred
       && ApplyMutation(s.board, s.deferred[action.sequence].forward).Some?
    {
      AppliedIsValid(s.board, s.deferred[action.sequence].forward);
    }
  }

  lemma ClipboardIsValid(s: State, request: RequestId, written: bool, refused: bool)
    requires Valid(s.board.thoughts)
    ensures Valid(ClipboardFinished(s, request, written, refused).state.board.thoughts)
  {
    if request in s.clipboard {
      var rest := s.(clipboard := s.clipboard - {request});
      PerformedIsValid(rest, PlanOf(s.board, Delete(SourceIds(s.clipboard[request].sources), s.clipboard[request].at)),
                       refused);
    }
  }

  lemma RepliesAreValid(s: State, action: Action, refused: bool)
    requires Valid(s.board.thoughts) && !Plans(action) && !Persists(action) && !ReplaysEdit(action)
    ensures Valid(Reduce(s, action, refused).state.board.thoughts)
  {
    if !Stopped(s, action) {
      if action.Edit? {
        EditedIsValid(s, action.edit, refused);
      } else if action.ClipboardResult? {
        ClipboardIsValid(s, action.request, action.written && !s.durability.Failed?, refused);
      } else if action.Undo? || action.Redo? {
        BoardMoveIsValid(s, action.Undo?, refused);
      } else {
        OthersLeaveItems(s, action, refused);
      }
    }
  }

  lemma PlansAreValid(s: State, action: Action, refused: bool)
    requires Valid(s.board.thoughts) && Plans(action)
    ensures Valid(Reduce(s, action, refused).state.board.thoughts)
  {
    if !Stopped(s, action) { PerformedIsValid(s, PlanOf(s.board, action), refused); }
  }

  lemma PersistsAreValid(s: State, action: Action, refused: bool)
    requires Valid(s.board.thoughts) && Persists(action)
    ensures Valid(Reduce(s, action, refused).state.board.thoughts)
  {
    if !Stopped(s, action) { PersistenceIsValid(s, action, refused); }
  }

  lemma ReplaysAreValid(s: State, action: Action, refused: bool)
    requires Valid(s.board.thoughts) && ReplaysEdit(action)
    ensures Valid(Reduce(s, action, refused).state.board.thoughts) <==>
            (!Reduce(s, action, refused).ok || ReplayFits(s, action))
  {
    ReplayIsMove(s, action, refused);
    if !Stopped(s, action) && HistoryMoved(s, action.scope, action.Undo?, refused).ok {
      EditorMoveIsValid(s, action.scope.id, action.Undo?, refused);
    } else {
      RejectedMove(s, action.scope, action.Undo?, refused);
    }
  }

  lemma ReplayIsMove(s: State, action: Action, refused: bool)
    requires ReplaysEdit(action)
    ensures Reduce(s, action, refused) ==
            if Stopped(s, action) then Rejected(s) else HistoryMoved(s, action.scope, action.Undo?, refused)
  {
  }

  lemma RejectedMove(s: State, scope: Scope, undo: bool, refused: bool)
    ensures !HistoryMoved(s, scope, undo, refused).ok ==> HistoryMoved(s, scope, undo, refused).state == s
  {
  }

  /** A valid board stays valid exactly unless an accepted editor replay brings back annotations that do not fit. */
  lemma ValidityIsKept(s: State, action: Action, refused: bool)
    requires Valid(s.board.thoughts)
    ensures Valid(Reduce(s, action, refused).state.board.thoughts) <==>
            (ReplaysEdit(action) && Reduce(s, action, refused).ok ==> ReplayFits(s, action))
  {
    if ReplaysEdit(action) {
      ReplaysAreValid(s, action, refused);
    } else if Plans(action) {
      PlansAreValid(s, action, refused);
    } else if Persists(action) {
      PersistsAreValid(s, action, refused);
    } else {
      RepliesAreValid(s, action, refused);
    }
  }

  // ---------------------------------------------------------------------------------------------
  // Runs

  predicate FitsAt(s: State, input: Input) {
    input.Act? && ReplaysEdit(input.action) && Step(s, input).ok ==> ReplayFits(s, input.action)
  }

  predicate AlwaysFits(s: State, inputs: seq<Input>) {
    forall i {:trigger FitsAt(After(s, inputs[..i]), inputs[i])} :: 0 <= i < |inputs| ==>
      FitsAt(After(s, inputs[..i]), inputs[i])
  }

  lemma StepIsValid(s: State, input: Input)
    requires Valid(s.board.thoughts) && FitsAt(s, input)
    ensures Valid(Step(s, input).state.board.thoughts)
  {
    match input
    case Act(action, refused) => ValidityIsKept(s, action, refused);
    case Shot(operation, refused) =>
      if Captured(s, operation, refused).Some? { AppliedIsValid(s.board, operation.forward); }
  }

  lemma {:induction false} RunsAreValid(s: State, inputs: seq<Input>)
    requires Valid(s.board.thoughts) && AlwaysFits(s, inputs)
    ensures Valid(After(s, inputs).board.thoughts)
  {
    if inputs != [] {
      var n := |inputs| - 1;
      forall i | 0 <= i < n
        ensures FitsAt(After(s, inputs[..n][..i]), inputs[..n][i])
      {
        assert inputs[..n][..i] == inputs[..i] && FitsAt(After(s, inputs[..i]), inputs[i]);
      }
      RunsAreValid(s, inputs[..n]);
      StepIsValid(After(s, inputs[..n]), inputs[n]);
    }
  }

  /** After any run whose editor replays fit, a new thought with renewed attachments is accepted. */
  lemma CreationsAlwaysPass(thoughts: seq<Entry>, counters: Counters, lastDurable: nat, inputs: seq<Input>,
                            id: ThoughtId, thought: Thought)
    requires Checked(counters, thoughts, lastDurable).Some? && DistinctEntries(thoughts)
    requires AlwaysFits(Initial(Checked(counters, thoughts, lastDurable).value), inputs)
    requires Lookup(After(Initial(Checked(counters, thoughts, lastDurable).value), inputs).board.thoughts, id).None?
    ensures var board := After(Initial(Checked(counters, thoughts, lastDurable).value), inputs).board;
            var numbered := AllNumbered(board.counters, AllRenewed(thought.annotations));
            ApplyMutation(board, AddThought(id, thought.(annotations := numbered))).Some?
  {
    var start := Initial(Checked(counters, thoughts, lastDurable).value);
    InitialIsDominated(thoughts, counters, lastDurable);
    RunsAreValid(start, inputs);
    CountersCoverThePast(start, inputs, 0);
    RenewedCreationPasses(After(start, inputs).board, id, thought);
  }
}
