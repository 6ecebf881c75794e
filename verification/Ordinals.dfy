/**
 * Attachment numbers over whole runs: counters never fall and no number is given out twice. A number that is new on the
 * board was either allotted by the action, and then lies above the counters, or brought along by it, or brought back by
 * undo and redo.
 */
module Ordinals {
  import opened Options
  import opened AttachmentNumbering
  import opened SessionBoards
  import opened Reducer
  import opened Durability

  // ---------------------------------------------------------------------------------------------
  // Numbers on the board

  lemma {:induction false} LookedUpIsOnBoard(thoughts: seq<Entry>, id: ThoughtId)
    requires Lookup(thoughts, id).Some?
    ensures Occurrences(Lookup(thoughts, id).value.annotations) <= OnBoard(thoughts)
  {
    if thoughts[0].id == id {
      assert thoughts[0].thought == Lookup(thoughts, id).value;
    } else {
      LookedUpIsOnBoard(thoughts[1..], id);
      RestIsOnBoard(thoughts);
    }
  }

  lemma RestIsOnBoard(thoughts: seq<Entry>)
    requires thoughts != []
    ensures OnBoard(thoughts) == Occurrences(thoughts[0].thought.annotations) + OnBoard(thoughts[1..])
  {
    forall o | o in OnBoard(thoughts[1..])
      ensures o in OnBoard(thoughts)
    {
      var i: nat :| i < |thoughts[1..]| && o in Occurrences(thoughts[1..][i].thought.annotations);
      assert thoughts[i + 1] == thoughts[1..][i];
    }
    forall o | o in OnBoard(thoughts)
      ensures o in Occurrences(thoughts[0].thought.annotations) || o in OnBoard(thoughts[1..])
    {
      var i: nat :| i < |thoughts| && o in Occurrences(thoughts[i].thought.annotations);
      if i > 0 { assert thoughts[i] == thoughts[1..][i - 1]; }
    }
  }

  lemma {:induction false} PutOnBoard(thoughts: seq<Entry>, id: ThoughtId, thought: Thought)
    ensures OnBoard(Put(thoughts, id, thought)) <= OnBoard(thoughts) + Occurrences(thought.annotations)
  {
    var after := Put(thoughts, id, thought);
    RestIsOnBoard(after);
    if thoughts == [] {
      assert after[1..] == [];
    } else {
      RestIsOnBoard(thoughts);
      if thoughts[0].id == id {
        assert after[1..] == thoughts[1..];
      } else {
        PutOnBoard(thoughts[1..], id, thought);
        assert after[1..] == Put(thoughts[1..], id, thought);
      }
    }
  }

  /** The numbers a mutation brings along. */
  function Carried(mutation: Mutation): set<Occurrence>
    requires !mutation.Batch?
  {
    match mutation
    case AddThought(_, thought) => Occurrences(thought.annotations)
    case ReplaceContent(_, _, _, _, annotations) => Occurrences(annotations)
    case _ => {}
  }

  lemma SingleNumbers(thoughts: seq<Entry>, mutation: Mutation)
    requires !mutation.Batch? && Single(thoughts, mutation).Some?
    ensures OnBoard(Single(thoughts, mutation).value) <= OnBoard(thoughts) + Carried(mutation)
  {
    if !mutation.ChangeSeparator? {
      forall thought
        ensures OnBoard(Put(thoughts, mutation.id, thought)) <= OnBoard(thoughts) + Occurrences(thought.annotations)
      {
        PutOnBoard(thoughts, mutation.id, thought);
      }
      if Lookup(thoughts, mutation.id).Some? { LookedUpIsOnBoard(thoughts, mutation.id); }
    }
  }

  /** Numbers above the counters, or given by the caller. */
  predicate AboveOr(counters: Counters, given: set<Occurrence>, occurrences: set<Occurrence>) {
    forall o :: o in occurrences ==> o.ordinal > Count(counters, o.image) || o in given
  }

  predicate CarryAbove(forward: seq<Mutation>, counters: Counters, given: set<Occurrence>) {
    forall i :: 0 <= i < |forward| ==> !forward[i].Batch? && AboveOr(counters, given, Carried(forward[i]))
  }

  /** Numbers that appear are above the counters, or were given by the caller. */
  predicate OnlyNewAppear(counters: Counters, given: set<Occurrence>, before: seq<Entry>, after: seq<Entry>) {
    forall o :: o in OnBoard(after) && o !in OnBoard(before) ==> o.ordinal > Count(counters, o.image) || o in given
  }

  lemma {:induction false} BatchNumbers(thoughts: seq<Entry>, forward: seq<Mutation>, n: nat, counters: Counters,
                                        given: set<Occurrence>)
    requires n <= |forward| && CarryAbove(forward, counters, given) && MutatedBy(thoughts, Batch(forward), n).Some?
    ensures OnlyNewAppear(counters, given, thoughts, MutatedBy(thoughts, Batch(forward), n).value)
  {
    if n > 0 {
      BatchNumbers(thoughts, forward, n - 1, counters, given);
      var before := MutatedBy(thoughts, Batch(forward), n - 1).value;
      assert Batch(forward).mutations[n - 1] == forward[n - 1];
      SingleNumbers(before, forward[n - 1]);
    }
  }

  // ---------------------------------------------------------------------------------------------
  // What is allotted is new

  /** Numbered annotations: kept numbers were there, new ones are above the counters. */
  lemma NumberedAreAbove(counters: Counters, low: Counters, annotations: seq<Annotation>)
    requires AtMost(low, counters)
    ensures AboveOr(low, Occurrences(annotations), Occurrences(AllNumbered(counters, annotations)))
  {
    NewNumbersAreFresh(counters, annotations);
    forall o | o in Occurrences(AllNumbered(counters, annotations))
      ensures o.ordinal > Count(low, o.image) || o in Occurrences(annotations)
    {
      var i :| 0 <= i < |annotations| && Assigned(AllNumbered(counters, annotations)[i])
               && OccurrenceOf(AllNumbered(counters, annotations)[i]) == o;
      if !Unassigned(annotations[i]) { assert OccurrenceOf(annotations[i]) == o; }
    }
  }

  lemma RenewedHaveNone(annotations: seq<Annotation>)
    ensures Occurrences(AllRenewed(annotations)) == {}
  {
  }

  /** Numbers that creations keep: those of preserved annotations. */
  function Preserved(items: seq<Creation>): set<Occurrence> {
    set i: nat, o | i < |items| && items[i].preserve && o in Occurrences(items[i].annotations) :: o
  }

  lemma {:induction false} AdditionsAreAbove(counters: Counters, items: seq<Creation>, given: set<Occurrence>)
    requires Preserved(items) <= given && Additions(counters, items).Some?
    ensures AtMost(counters, Additions(counters, items).value.0)
    ensures CarryAbove(Additions(counters, items).value.1, counters, given)
  {
    if items != [] {
      var rest, item := items[..|items| - 1], items[|items| - 1];
      assert Preserved(rest) <= Preserved(items);
      AdditionsAreAbove(counters, rest, given);
      var before := Additions(counters, rest).value.0;
      var annotations := if item.preserve then item.annotations else AllRenewed(item.annotations);
      NumberedAreAbove(before, counters, annotations);
      RenewedHaveNone(item.annotations);
      NewNumbersAreFresh(before, annotations);
      LastPreserved(items);
    }
  }

  lemma LastPreserved(items: seq<Creation>)
    requires items != []
    ensures items[|items| - 1].preserve ==> Occurrences(items[|items| - 1].annotations) <= Preserved(items)
  {
  }

  /** Kept attachments were in the text before; the others get numbers above the counters. */
  lemma EditNumbers(counters: Counters, edit: Rewrite)
    ensures AboveOr(counters, Occurrences(edit.beforeAnnotations),
                    Occurrences(AllNumbered(counters, EditRenewal(edit))))
  {
    var given := EditRenewal(edit);
    NumberedAreAbove(counters, counters, given);
    forall o | o in Occurrences(given)
      ensures o in Occurrences(edit.beforeAnnotations)
    {
      var i :| 0 <= i < |given| && Assigned(given[i]) && OccurrenceOf(given[i]) == o;
      var k :| 0 <= k < |edit.beforeAnnotations| && edit.beforeAnnotations[k].kind == given[i].kind;
      assert OccurrenceOf(edit.beforeAnnotations[k]) == o;
    }
  }

  function Rewritten(edits: seq<Rewrite>): set<Occurrence> {
    set i: nat, o | i < |edits| && o in Occurrences(edits[i].afterAnnotations) :: o
  }

  /** The numbers that an action brings along: those its caller has given already. */
  function Given(action: Action): set<Occurrence> {
    match action
    case Create(items, _) => Preserved(items)
    case ReplaceExported(_, reference, _) => Preserved([reference])
    case Reflow(edits) => Rewritten(edits)
    case Split(edit, _, _, annotations, _) => Occurrences(edit.afterAnnotations) + Occurrences(annotations)
    case Merge(_, _, annotations, _) => Occurrences(annotations)
    case _ => {}
  }

  lemma PlanCarriesAbove(board: Board, action: Action)
    requires Plans(action) && PlanOf(board, action).Perform?
    ensures CarryAbove(PlanOf(board, action).forward, board.counters, Given(action))
  {
    match action
    case Create(items, _) => AdditionsAreAbove(board.counters, items, Given(action));
    case Duplicate(ids, copies, at) => CopiesCarryAbove(board, ids, copies, at);
    case ReplaceExported(sources, reference, at) => ExportCarriesAbove(board, sources, reference, at);
    case Reflow(edits) => ReflowCarriesAbove(board, edits);
    case _ =>
  }

  lemma CopiesCarryAbove(board: Board, ids: seq<ThoughtId>, copies: seq<ThoughtId>, at: Timestamp)
    requires PlanOf(board, Duplicate(ids, copies, at)).Perform?
    ensures CarryAbove(PlanOf(board, Duplicate(ids, copies, at)).forward, board.counters, {})
  {
    var items := seq(|ids|, i requires 0 <= i < |ids| => CopyOf(board.thoughts, ids[i], copies[i]));
    assert Preserved(items) == {};
    AdditionsAreAbove(board.counters, items, {});
  }

  lemma ExportCarriesAbove(board: Board, sources: seq<Source>, reference: Creation, at: Timestamp)
    requires ExportPlan(board, sources, reference, at).Perform?
    ensures CarryAbove(ExportPlan(board, sources, reference, at).forward, board.counters, Preserved([reference]))
  {
    AdditionsAreAbove(board.counters, [reference], Preserved([reference]));
  }

  lemma ReflowCarriesAbove(board: Board, edits: seq<Rewrite>)
    requires ReflowPlan(board.thoughts, edits).Perform?
    ensures CarryAbove(ReflowPlan(board.thoughts, edits).forward, board.counters, Rewritten(edits))
  {
  }

  lemma EditedNumbers(s: State, edit: Rewrite, refused: bool)
    ensures OnlyNewAppear(s.board.counters, {}, s.board.thoughts, Edited(s, edit, refused).state.board.thoughts)
  {
    if Applies(s.board.thoughts, edit) {
      var annotations := AllNumbered(s.board.counters, EditRenewal(edit));
      var thought := Lookup(s.board.thoughts, edit.id).value.(content := edit.afterContent, annotations := annotations);
      EditNumbers(s.board.counters, edit);
      PutOnBoard(s.board.thoughts, edit.id, thought);
      LookedUpIsOnBoard(s.board.thoughts, edit.id);
    }
  }

  lemma PerformedNumbers(s: State, plan: Plan, refused: bool, given: set<Occurrence>)
    requires plan.Perform? ==> CarryAbove(plan.forward, s.board.counters, given)
    ensures OnlyNewAppear(s.board.counters, given, s.board.thoughts, Performed(s, plan, refused).state.board.thoughts)
  {
    if plan.Perform? && Mutated(s.board.thoughts, Batch(plan.forward)).Some? {
      BatchNumbers(s.board.thoughts, plan.forward, |plan.forward|, s.board.counters, given);
    }
  }

  lemma ReceiptNumbers(s: State, action: Action, refused: bool)
    requires Inv(s) && Persists(action)
    ensures OnlyNewAppear(s.board.counters, {}, s.board.thoughts, Persistence(s, action, refused).state.board.thoughts)
  {
    if action.PersistenceCommitted? && action.sequence in s.deferred {
      var removal := s.deferred[action.sequence].forward;
      if Mutated(s.board.thoughts, removal).Some? {
        assert removal == Batch(removal.mutations);
        BatchNumbers(s.board.thoughts, removal.mutations, |removal.mutations|, s.board.counters, {});
      }
    }
  }

  lemma CutNumbers(s: State, request: RequestId, written: bool, refused: bool)
    ensures OnlyNewAppear(s.board.counters, {}, s.board.thoughts,
                          ClipboardFinished(s, request, written, refused).state.board.thoughts)
  {
    if request in s.clipboard {
      var rest := s.(clipboard := s.clipboard - {request});
      PerformedNumbers(rest, PlanOf(s.board, Delete(SourceIds(s.clipboard[request].sources), s.clipboard[request].at)),
                       refused, {});
    }
  }

  lemma OtherNumbers(s: State, action: Action, refused: bool)
    requires !Plans(action) && !Persists(action) && !action.Undo? && !action.Redo?
    ensures OnlyNewAppear(s.board.counters, {}, s.board.thoughts, Reduce(s, action, refused).state.board.thoughts)
  {
    if !Stopped(s, action) {
      if action.Edit? {
        EditedNumbers(s, action.edit, refused);
      } else if action.ClipboardResult? {
        CutNumbers(s, action.request, action.written && !s.durability.Failed?, refused);
      } else {
        OthersLeaveItems(s, action, refused);
      }
    }
  }

  lemma PlanNumbers(s: State, action: Action, refused: bool)
    requires Plans(action)
    ensures OnlyNewAppear(s.board.counters, Given(action), s.board.thoughts,
                          Reduce(s, action, refused).state.board.thoughts)
  {
    if !Stopped(s, action) {
      var plan := PlanOf(s.board, action);
      if plan.Perform? { PlanCarriesAbove(s.board, action); }
      PerformedNumbers(s, plan, refused, Given(action));
    }
  }

  lemma PersistNumbers(s: State, action: Action, refused: bool)
    requires Inv(s) && Persists(action)
    ensures OnlyNewAppear(s.board.counters, {}, s.board.thoughts, Reduce(s, action, refused).state.board.thoughts)
  {
    if !Stopped(s, action) { ReceiptNumbers(s, action, refused); }
  }

  /**
   * A number that appears on the board lies above the counter, unless the action brought it along. Only undo and
   * redo bring numbers back.
   */
  lemma NewNumbersAreAbove(s: State, action: Action, refused: bool)
    requires Inv(s) && !action.Undo? && !action.Redo?
    ensures OnlyNewAppear(s.board.counters, Given(action), s.board.thoughts,
                          Reduce(s, action, refused).state.board.thoughts)
  {
    if Plans(action) {
      PlanNumbers(s, action, refused);
    } else if Persists(action) {
      PersistNumbers(s, action, refused);
    } else {
      OtherNumbers(s, action, refused);
    }
  }

  // ---------------------------------------------------------------------------------------------
  // New occurrences always pass validation

  lemma {:induction false} PutAppends(thoughts: seq<Entry>, id: ThoughtId, thought: Thought)
    requires Lookup(thoughts, id).None?
    ensures Put(thoughts, id, thought) == thoughts + [Entry(id, thought)]
  {
    if thoughts != [] { PutAppends(thoughts[1..], id, thought); }
  }

  lemma {:induction false} TakenOfPrefix(thoughts: seq<Entry>, more: seq<Entry>, n: nat)
    requires n <= |thoughts|
    ensures Taken(thoughts + more, n) == Taken(thoughts, n)
    ensures Taken(thoughts, n) <= OnBoard(thoughts)
  {
    if n > 0 { TakenOfPrefix(thoughts, more, n - 1); }
  }

  /** A created thought whose attachments count as new occurrences is accepted on every valid board. */
  lemma RenewedCreationPasses(board: Board, id: ThoughtId, thought: Thought)
    requires Durable(board.thoughts) && UniqueLive(board.thoughts) && Covered(board)
    requires Lookup(board.thoughts, id).None?
    ensures var numbered := AllNumbered(board.counters, AllRenewed(thought.annotations));
            ApplyMutation(board, AddThought(id, thought.(annotations := numbered))).Some?
  {
    var numbered := AllNumbered(board.counters, AllRenewed(thought.annotations));
    var entry := Entry(id, thought.(annotations := numbered, deletedAt := None));
    var after := board.thoughts + [entry];
    PutAppends(board.thoughts, id, entry.thought);
    NewNumbersAreFresh(board.counters, AllRenewed(thought.annotations));
    forall i | 0 <= i < |after|
      ensures UniqueAt(after, i)
    {
      TakenOfPrefix(board.thoughts, [entry], i);
      if i < |board.thoughts| {
        assert UniqueAt(board.thoughts, i);
      } else {
        RenewedAreUnique(board.counters, thought.annotations, Taken(after, i));
      }
    }
  }

  // ---------------------------------------------------------------------------------------------
  // What every step keeps

  predicate RevisionCovered(counters: Counters, revision: Revision) {
    && Dominates(counters, Occurrences(revision.beforeAnnotations))
    && Dominates(counters, Occurrences(revision.afterAnnotations))
  }

  predicate EditorCovered(counters: Counters, editor: EditorHistory) {
    forall i :: 0 <= i < |editor.revisions| ==> RevisionCovered(counters, editor.revisions[i])
  }

  predicate EditorsCovered(counters: Counters, editors: map<ThoughtId, EditorHistory>) {
    forall id :: id in editors ==> EditorCovered(counters, editors[id])
  }

  /** The counters cover the board and every retained revision. */
  predicate Dominated(s: State) { Covered(s.board) && EditorsCovered(s.board.counters, s.editors) }

  predicate Rises(s: State, t: State) { AtMost(s.board.counters, t.board.counters) && Dominated(t) }

  lemma EditorsStayCovered(a: Counters, b: Counters, editors: map<ThoughtId, EditorHistory>)
    requires AtMost(a, b) && EditorsCovered(a, editors)
    ensures EditorsCovered(b, editors)
  {
  }

  lemma SettledStayCovered(counters: Counters, editors: map<ThoughtId, EditorHistory>, ids: seq<ThoughtId>)
    requires EditorsCovered(counters, editors)
    ensures EditorsCovered(counters, Settle(editors, ids))
  {
  }

  lemma AppliedRises(s: State, mutation: Mutation)
    requires Dominated(s) && ApplyMutation(s.board, mutation).Some?
    ensures var board := ApplyMutation(s.board, mutation).value;
            AtMost(s.board.counters, board.counters) && Covered(board) && EditorsCovered(board.counters, s.editors)
  {
    CheckedIsCovered(s.board.counters, Mutated(s.board.thoughts, mutation).value, s.board.lastDurable);
    EditorsStayCovered(s.board.counters, ApplyMutation(s.board, mutation).value.counters, s.editors);
  }

  lemma PerformedRises(s: State, plan: Plan, refused: bool)
    requires Dominated(s)
    ensures Rises(s, Performed(s, plan, refused).state)
  {
    if plan.Perform? && ApplyMutation(s.board, Batch(plan.forward)).Some? {
      AppliedRises(s, Batch(plan.forward));
      SettledStayCovered(ApplyMutation(s.board, Batch(plan.forward)).value.counters, s.editors, plan.edited);
    }
  }

  lemma UnnumberedRises(s: State, edit: Rewrite)
    requires Dominated(s) && Unnumbered(s, edit).Some?
    ensures Rises(s, Unnumbered(s, edit).value)
  {
    var annotations := Allotted(s.board.counters, EditRenewal(edit)).value.1;
    var thought := Lookup(s.board.thoughts, edit.id).value.(content := edit.afterContent, annotations := annotations);
    var thoughts := Put(s.board.thoughts, edit.id, thought);
    CheckedIsCovered(s.board.counters, thoughts, s.board.lastDurable);
    var counters := Unnumbered(s, edit).value.board.counters;
    EditorsStayCovered(s.board.counters, counters, s.editors);
    LookedUpIsOnBoard(s.board.thoughts, edit.id);
    LookupAfterPut(s.board.thoughts, edit.id, thought, edit.id);
    LookedUpIsOnBoard(thoughts, edit.id);
    EditorExtended(counters, s.editors, edit.id, EditorOf(s, edit.id),
                   Revision(s.highest + 1, edit.beforeContent, edit.afterContent, edit.beforeAnnotations, annotations));
  }

  lemma EditorExtended(counters: Counters, editors: map<ThoughtId, EditorHistory>, id: ThoughtId,
                       editor: EditorHistory, revision: Revision)
    requires EditorsCovered(counters, editors) && EditorCovered(counters, editor) && RevisionCovered(counters, revision)
    ensures EditorsCovered(counters, editors[id := EditorHistory(Take(editor.revisions, editor.cursor) + [revision],
                                                                 editor.cursor + 1)])
  {
  }

  lemma EditedRises(s: State, edit: Rewrite, refused: bool)
    requires Dominated(s)
    ensures Rises(s, Edited(s, edit, refused).state)
  {
    if Unnumbered(s, edit).Some? { UnnumberedRises(s, edit); }
  }

  /** Replaying a revision brings back numbers that the counters cover already. */
  lemma EditorMoveRises(s: State, id: ThoughtId, undo: bool)
    requires Dominated(s) && MovedEditor(s, id, undo).Some?
    ensures Rises(s, MovedEditor(s, id, undo).value)
  {
    var editor := EditorOf(s, id);
    var r := NextRevision(editor, undo).value;
    assert RevisionCovered(s.board.counters, r);
    var found := Lookup(s.board.thoughts, id).value;
    var thought := if undo then found.(content := r.beforeContent, annotations := r.beforeAnnotations)
                   else found.(content := r.afterContent, annotations := r.afterAnnotations);
    PutOnBoard(s.board.thoughts, id, thought);
  }

  lemma HistoryRises(s: State, scope: Scope, undo: bool, refused: bool)
    requires Dominated(s)
    ensures Rises(s, HistoryMoved(s, scope, undo, refused).state)
  {
    if scope.EditorScope? {
      if MovedEditor(s, scope.id, undo).Some? { EditorMoveRises(s, scope.id, undo); }
    } else if MovedBoard(s, undo).Some? {
      AppliedRises(s, ReplayOf(NextOperation(s, undo).value, undo));
    }
  }

  lemma PersistenceRises(s: State, action: Action, refused: bool)
    requires Dominated(s) && Persists(action)
    ensures Rises(s, Persistence(s, action, refused).state)
  {
    if action.PersistenceCommitted? && action.sequence in s.deferred
       && ApplyMutation(s.board, s.deferred[action.sequence].forward).Some?
    {
      AppliedRises(s, s.deferred[action.sequence].forward);
    }
  }

  lemma ClipboardRises(s: State, request: RequestId, written: bool, refused: bool)
    requires Dominated(s)
    ensures Rises(s, ClipboardFinished(s, request, written, refused).state)
  {
    if request in s.clipboard {
      var rest := s.(clipboard := s.clipboard - {request});
      PerformedRises(rest, PlanOf(s.board, Delete(SourceIds(s.clipboard[request].sources), s.clipboard[request].at)),
                     refused);
    }
  }

  lemma HandlersRise(s: State, action: Action, refused: bool)
    requires Dominated(s) && !Plans(action) && !Persists(action)
    ensures Rises(s, Reduce(s, action, refused).state)
  {
    if !Stopped(s, action) {
      if action.Edit? {
        EditedRises(s, action.edit, refused);
      } else if action.ClipboardResult? {
        ClipboardRises(s, action.request, action.written && !s.durability.Failed?, refused);
      } else if action.Undo? || action.Redo? {
        HistoryRises(s, action.scope, action.Undo?, refused);
      } else {
        OthersLeaveItems(s, action, refused);
      }
    }
  }

  lemma PlansRise(s: State, action: Action, refused: bool)
    requires Dominated(s) && Plans(action)
    ensures Rises(s, Reduce(s, action, refused).state)
  {
    if !Stopped(s, action) { PerformedRises(s, PlanOf(s.board, action), refused); }
  }

  lemma StepRises(s: State, input: Input)
    requires Dominated(s)
    ensures Rises(s, Step(s, input).state)
  {
    match input
    case Act(action, refused) =>
      if Plans(action) {
        PlansRise(s, action, refused);
      } else if Persists(action) {
        PersistsRise(s, action, refused);
      } else {
        HandlersRise(s, action, refused);
      }
    case Shot(operation, refused) =>
      if Captured(s, operation, refused).Some? { AppliedRises(s, operation.forward); }
  }

  lemma PersistsRise(s: State, action: Action, refused: bool)
    requires Dominated(s) && Persists(action)
    ensures Rises(s, Reduce(s, action, refused).state)
  {
    if !Stopped(s, action) { PersistenceRises(s, action, refused); }
  }

  // ---------------------------------------------------------------------------------------------
  // Whole runs

  /** Counters never fall, and always cover everything that any earlier state showed. */
  lemma {:induction false} CountersCoverThePast(s: State, inputs: seq<Input>, i: nat)
    requires Dominated(s) && i <= |inputs|
    ensures var past, now := After(s, inputs[..i]), After(s, inputs);
            && Dominated(past) && Dominated(now) && AtMost(past.board.counters, now.board.counters)
            && Dominates(now.board.counters, OnBoard(past.board.thoughts))
    decreases |inputs|
  {
    if i == |inputs| {
      assert inputs[..i] == inputs;
      if i > 0 {
        CountersCoverThePast(s, inputs[..i - 1], i - 1);
        assert inputs[..i - 1][..i - 1] == inputs[..i - 1];
        StepRises(After(s, inputs[..i - 1]), inputs[i - 1]);
      }
    } else {
      var before := inputs[..|inputs| - 1];
      assert before[..i] == inputs[..i];
      CountersCoverThePast(s, before, i);
      StepRises(After(s, before), inputs[|inputs| - 1]);
    }
  }

  /**
   * A number that an action allots, that is, brings to the board without having been given it, was on the board
   * in no earlier state of the run, deleted thoughts and undone edits included.
   */
  lemma NumbersAreNeverReused(s: State, inputs: seq<Input>, action: Action, refused: bool, i: nat, o: Occurrence)
    requires Inv(After(s, inputs)) && Dominated(s) && i <= |inputs| && !action.Undo? && !action.Redo?
    requires o in OnBoard(Reduce(After(s, inputs), action, refused).state.board.thoughts)
    requires o !in OnBoard(After(s, inputs).board.thoughts) && o !in Given(action)
    ensures o !in OnBoard(After(s, inputs[..i]).board.thoughts)
  {
    NewNumbersAreAbove(After(s, inputs), action, refused);
    CountersCoverThePast(s, inputs, i);
  }

  /** A session starts covered. */
  lemma InitialIsDominated(thoughts: seq<Entry>, counters: Counters, lastDurable: nat)
    requires Checked(counters, thoughts, lastDurable).Some?
    ensures Dominated(Initial(Checked(counters, thoughts, lastDurable).value))
  {
    CheckedIsCovered(counters, thoughts, lastDurable);
  }
}
