/**
 * The reducer: application state, actions and their results. Focus, mode and positions are not modelled;
 * the checks that depend on them, and on text ranges, are an input that may refuse a board change.
 */
module Reducer {
  import opened Options
  import opened AttachmentNumbering
  import opened SessionBoards

  type RequestId = nat

  const MAX_SEQUENCE: nat := 0xFFFF_FFFF_FFFF_FFFF

  datatype Operation = Operation(sequence: nat, forward: Mutation, inverse: Mutation)

  datatype Revision = Revision(sequence: nat, beforeContent: string, afterContent: string,
                               beforeAnnotations: seq<Annotation>, afterAnnotations: seq<Annotation>)

  datatype EditorHistory = EditorHistory(revisions: seq<Revision>, cursor: nat)

  datatype Source = Source(id: ThoughtId, content: string, annotations: seq<Annotation>)

  datatype PendingClipboard = PendingClipboard(sources: seq<Source>, cut: bool, at: Timestamp)

  datatype Code = RecoveryCapacity | OtherCode

  datatype Durability =
    | Settled(sequence: nat)
    | Outstanding(durable: nat, latest: nat)
    | Failed(durable: nat, failed: nat, code: Code)

  /** `pending` is an ordered set: its sequences increase. */
  datatype State = State(board: Board, history: seq<Operation>, cursor: nat, editors: map<ThoughtId, EditorHistory>,
                         clipboard: map<RequestId, PendingClipboard>, locked: set<ThoughtId>, pending: seq<nat>,
                         deferred: map<nat, Operation>, highest: nat, durability: Durability)

  datatype Effect =
    | Commit(sequence: nat)
    | CommitMetadata
    | RetryStorage(sequence: nat)
    | WriteClipboard(request: RequestId)
    | Notify

  /** A refused action may still have changed the state. */
  datatype Outcome = Outcome(state: State, ok: bool, effects: seq<Effect>)

  datatype Creation = Creation(id: ThoughtId, content: string, annotations: seq<Annotation>, preserve: bool,
                               name: Option<string>, presentation: nat)

  datatype Rewrite = Rewrite(id: ThoughtId, beforeContent: string, beforeAnnotations: seq<Annotation>,
                             afterContent: string, afterAnnotations: seq<Annotation>)

  datatype Scope = BoardScope | EditorScope(id: ThoughtId)

  datatype Action =
    | RenameSession(changed: bool)
    | Navigate
    | Create(items: seq<Creation>, at: Timestamp)
    | Edit(edit: Rewrite)
    | Delete(ids: seq<ThoughtId>, at: Timestamp)
    | Rename(id: ThoughtId, name: Option<string>)
    | Present(ids: seq<ThoughtId>, presentation: nat)
    | Move(ids: seq<ThoughtId>, moved: seq<ThoughtId>, unmoved: bool)
    | InsertSeparator
    | Duplicate(ids: seq<ThoughtId>, copies: seq<ThoughtId>, at: Timestamp)
    | Reflow(edits: seq<Rewrite>)
    | Split(edit: Rewrite, newId: ThoughtId, content: string, annotations: seq<Annotation>, at: Timestamp)
    | Merge(ids: seq<ThoughtId>, content: string, annotations: seq<Annotation>, at: Timestamp)
    | ReplaceExported(sources: seq<Source>, reference: Creation, at: Timestamp)
    | StageRemoval(ids: seq<ThoughtId>, at: Timestamp)
    | Copy(request: RequestId, ids: seq<ThoughtId>)
    | Cut(request: RequestId, ids: seq<ThoughtId>, at: Timestamp)
    | ClipboardResult(request: RequestId, written: bool)
    | BeginSubmission(ids: seq<ThoughtId>)
    | EndSubmission(ids: seq<ThoughtId>)
    | Undo(scope: Scope)
    | Redo(scope: Scope)
    | PersistenceCommitted(sequence: nat)
    | PersistenceFailed(sequence: nat, code: Code)
    | RetryPersistence(sequence: nat)

  function Initial(board: Board): State {
    State(board, [], 0, map[], map[], {}, [], map[], board.lastDurable, Settled(board.lastDurable))
  }

  // ---------------------------------------------------------------------------------------------
  // Sequences and durability

  /** No number is given out while an operation is staged. */
  function NextSequence(s: State): Option<nat> {
    if s.deferred != map[] || s.highest >= MAX_SEQUENCE then None else Some(s.highest + 1)
  }

  /** A failure that is still pending stays; otherwise the pending sequences decide. */
  function Review(durability: Durability, pending: seq<nat>, lastDurable: nat): Durability {
    if durability.Failed? && durability.failed in pending then durability
    else if pending == [] then Settled(lastDurable)
    else Outstanding(lastDurable, pending[|pending| - 1])
  }

  function Refreshed(s: State): State {
    s.(durability := Review(s.durability, s.pending, s.board.lastDurable))
  }

  /** The new sequence is above all pending ones, so it goes last. */
  function Tracked(s: State, sequence: nat): State {
    Refreshed(s.(highest := sequence, pending := s.pending + [sequence]))
  }

  function Take<T>(items: seq<T>, n: nat): seq<T> { if n <= |items| then items[..n] else items }

  /** Applies an operation's mutation and appends it to the history, dropping what could be redone. */
  function Entered(s: State, operation: Operation, refused: bool): Option<State> {
    var board := ApplyMutation(s.board, operation.forward);
    if refused || board.None? then None
    else Some(s.(board := board.value, history := Take(s.history, s.cursor) + [operation], cursor := s.cursor + 1))
  }

  function Recorded(s: State, operation: Operation, refused: bool): Option<State> {
    var entered := Entered(s, operation, refused);
    if entered.None? then None else Some(Tracked(entered.value, operation.sequence))
  }

  function Staged(s: State, operation: Operation): Option<State> {
    if NextSequence(s) != Some(operation.sequence) then None
    else
      var tracked := Tracked(s, operation.sequence);
      Some(tracked.(deferred := tracked.deferred[operation.sequence := operation]))
  }

  function CommittedDeferred(s: State, sequence: nat, refused: bool): Option<State> {
    if sequence !in s.deferred then Some(s)
    else
      var entered := Entered(s, s.deferred[sequence], refused);
      if entered.None? then None else Some(entered.value.(deferred := s.deferred - {sequence}))
  }

  /** A screenshot that storage has already accepted: it adds a thought, and its inverse deletes one. */
  function Captured(s: State, operation: Operation, refused: bool): Option<State> {
    if NextSequence(s) != Some(operation.sequence) || !operation.forward.AddThought?
       || !operation.inverse.SetDeletion? then None
    else
      var entered := Entered(s, operation, refused);
      if entered.None? then None
      else
        var board := entered.value.board.(lastDurable := operation.sequence);
        Some(Refreshed(entered.value.(board := board, highest := operation.sequence)))
  }

  // ---------------------------------------------------------------------------------------------
  // Plans: what an action does to the board

  datatype Plan =
    | Refuse
    | Nothing
    | TrackOnly
    | Perform(forward: seq<Mutation>, inverse: seq<Mutation>, edited: seq<ThoughtId>)

  predicate AllLive(thoughts: seq<Entry>, ids: seq<ThoughtId>) {
    forall i :: 0 <= i < |ids| ==> LiveAt(thoughts, ids[i])
  }

  predicate DistinctIds(ids: seq<ThoughtId>) { forall i, j :: 0 <= i < j < |ids| ==> ids[i] != ids[j] }

  predicate Selectable(thoughts: seq<Entry>, ids: seq<ThoughtId>) {
    ids != [] && DistinctIds(ids) && AllLive(thoughts, ids)
  }

  function Deletions(ids: seq<ThoughtId>, deletedAt: Option<Timestamp>): seq<Mutation> {
    seq(|ids|, i requires 0 <= i < |ids| => SetDeletion(ids[i], deletedAt))
  }

  predicate Matches(thoughts: seq<Entry>, id: ThoughtId, content: string, annotations: seq<Annotation>) {
    LiveAt(thoughts, id) && Lookup(thoughts, id).value.content == content
    && Lookup(thoughts, id).value.annotations == annotations
  }

  predicate Applies(thoughts: seq<Entry>, edit: Rewrite) {
    Matches(thoughts, edit.id, edit.beforeContent, edit.beforeAnnotations)
  }

  predicate IsChange(edit: Rewrite) {
    edit.beforeContent != edit.afterContent || edit.beforeAnnotations != edit.afterAnnotations
  }

  function Replacement(edit: Rewrite): Mutation {
    ReplaceContent(edit.id, edit.beforeContent, edit.beforeAnnotations, edit.afterContent, edit.afterAnnotations)
  }

  function Reverted(edit: Rewrite): Mutation {
    ReplaceContent(edit.id, edit.afterContent, edit.afterAnnotations, edit.beforeContent, edit.beforeAnnotations)
  }

  /** New thoughts with their attachments numbered one after the other; `None` when numbers run out. */
  function Additions(counters: Counters, items: seq<Creation>): (r: Option<(Counters, seq<Mutation>)>)
    ensures r.Some? ==> |r.value.1| == |items|
    ensures r.Some? ==> forall i :: 0 <= i < |items| ==> r.value.1[i].AddThought? && r.value.1[i].id == items[i].id
  {
    if items == [] then Some((counters, []))
    else
      var before := Additions(counters, items[..|items| - 1]);
      if before.None? then None
      else
        var item := items[|items| - 1];
        var given := if item.preserve then item.annotations else AllRenewed(item.annotations);
        var allotted := Allotted(before.value.0, given);
        if allotted.None? then None
        else
          var thought := Thought(item.content, allotted.value.1, item.name, item.presentation, None);
          Some((allotted.value.0, before.value.1 + [AddThought(item.id, thought)]))
  }

  function IdsOf(items: seq<Creation>): seq<ThoughtId> { seq(|items|, i requires 0 <= i < |items| => items[i].id) }

  function CreationPlan(counters: Counters, items: seq<Creation>, at: Timestamp): Plan {
    var additions := Additions(counters, items);
    if items == [] || additions.None? then Refuse
    else Perform(additions.value.1, Deletions(IdsOf(items), Some(at)), [])
  }

  /** A copy is a creation from the source's text. */
  function CopyOf(thoughts: seq<Entry>, id: ThoughtId, copy: ThoughtId): Creation
    requires LiveAt(thoughts, id)
  {
    var thought := Lookup(thoughts, id).value;
    Creation(copy, thought.content, thought.annotations, false, thought.name, thought.presentation)
  }

  function ExactDeletion(source: Source, at: Timestamp): Mutation {
    SetDeletionExact(source.id, source.content, source.annotations, None, Some(at))
  }

  function ExactRestoration(source: Source, at: Timestamp): Mutation {
    SetDeletionExact(source.id, source.content, source.annotations, Some(at), None)
  }

  function SourceOf(thoughts: seq<Entry>, id: ThoughtId): Source
    requires LiveAt(thoughts, id)
  {
    Source(id, Lookup(thoughts, id).value.content, Lookup(thoughts, id).value.annotations)
  }

  function MergePlan(thoughts: seq<Entry>, ids: seq<ThoughtId>, content: string, annotations: seq<Annotation>,
                     at: Timestamp): Plan
  {
    if |ids| < 2 || !Selectable(thoughts, ids) then Refuse
    else
      var first := SourceOf(thoughts, ids[0]);
      var edit := Rewrite(first.id, first.content, first.annotations, content, annotations);
      var others := seq(|ids| - 1, i requires 0 <= i < |ids| - 1 => SourceOf(thoughts, ids[i + 1]));
      Perform([Replacement(edit)] + seq(|others|, i requires 0 <= i < |others| => ExactDeletion(others[i], at)),
              seq(|others|, i requires 0 <= i < |others| => ExactRestoration(others[i], at)) + [Reverted(edit)], ids)
  }

  function SplitPlan(thoughts: seq<Entry>, edit: Rewrite, newId: ThoughtId, content: string,
                     annotations: seq<Annotation>, at: Timestamp): Plan
  {
    if !Applies(thoughts, edit) then Refuse
    else
      var neighbor := Thought(content, annotations, None, Lookup(thoughts, edit.id).value.presentation, None);
      Perform([Replacement(edit), AddThought(newId, neighbor)],
              [ExactDeletion(Source(newId, content, annotations), at), Reverted(edit)], [edit.id])
  }

  predicate SourcesMatch(thoughts: seq<Entry>, sources: seq<Source>) {
    forall i :: 0 <= i < |sources| ==> Matches(thoughts, sources[i].id, sources[i].content, sources[i].annotations)
  }

  function ExportPlan(board: Board, sources: seq<Source>, reference: Creation, at: Timestamp): Plan {
    var additions := Additions(board.counters, [reference]);
    if sources == [] || !SourcesMatch(board.thoughts, sources) || !DistinctIds(SourceIds(sources)) || additions.None?
    then Refuse
    else
      var added := additions.value.1;
      Perform(seq(|sources|, i requires 0 <= i < |sources| => ExactDeletion(sources[i], at)) + added,
              [ExactDeletion(Source(reference.id, reference.content, added[0].thought.annotations), at)] +
              seq(|sources|, i requires 0 <= i < |sources| => ExactRestoration(sources[i], at)), [])
  }

  function EditIds(edits: seq<Rewrite>): seq<ThoughtId> { seq(|edits|, i requires 0 <= i < |edits| => edits[i].id) }

  function ReflowPlan(thoughts: seq<Entry>, edits: seq<Rewrite>): Plan {
    if edits == [] then Nothing
    else if |edits| == 1 && Applies(thoughts, edits[0]) && !IsChange(edits[0]) then Nothing
    else if !DistinctIds(EditIds(edits)) then Refuse
    else if exists i :: 0 <= i < |edits| && (!Applies(thoughts, edits[i]) || !IsChange(edits[i])) then Refuse
    else Perform(seq(|edits|, i requires 0 <= i < |edits| => Replacement(edits[i])),
                 seq(|edits|, i requires 0 <= i < |edits| => Reverted(edits[i])), EditIds(edits))
  }

  /** Only the thoughts that differ are changed. */
  function Differing(thoughts: seq<Entry>, ids: seq<ThoughtId>, presentation: nat): seq<ThoughtId>
    requires AllLive(thoughts, ids)
  {
    if ids == [] then []
    else
      Differing(thoughts, ids[..|ids| - 1], presentation) +
      if Lookup(thoughts, ids[|ids| - 1]).value.presentation == presentation then [] else [ids[|ids| - 1]]
  }

  function PresentPlan(thoughts: seq<Entry>, ids: seq<ThoughtId>, presentation: nat): Plan {
    if !Selectable(thoughts, ids) then Refuse
    else
      var changed := Differing(thoughts, ids, presentation);
      if changed == [] then Nothing
      else
        Perform(seq(|changed|, i requires 0 <= i < |changed| => SetPresentation(changed[i], presentation)),
                seq(|changed|, i requires 0 <= i < |changed| =>
                  SetPresentation(changed[i], if LiveAt(thoughts, changed[i])
                                              then Lookup(thoughts, changed[i]).value.presentation else 0)), [])
  }

  function PlanOf(board: Board, action: Action): Plan {
    var thoughts := board.thoughts;
    match action
    case Create(items, at) => CreationPlan(board.counters, items, at)
    case Delete(ids, at) =>
      if Selectable(thoughts, ids) then Perform(Deletions(ids, Some(at)), Deletions(ids, None), []) else Refuse
    case Rename(id, name) =>
      if !LiveAt(thoughts, id) then Refuse
      else
        var before := Lookup(thoughts, id).value.name;
        if before == name then TrackOnly else Perform([SetName(id, before, name)], [SetName(id, name, before)], [])
    case Present(ids, presentation) => PresentPlan(thoughts, ids, presentation)
    case Move(_, moved, unmoved) => // a selection moves by moving the neighbours it passes
      if unmoved then Nothing else
      var moves := seq(|moved|, i requires 0 <= i < |moved| => MoveThought(moved[i]));
      Perform([ChangeSeparator] + moves, [ChangeSeparator] + moves, [])
    case InsertSeparator => Perform([ChangeSeparator], [ChangeSeparator], [])
    case Duplicate(ids, copies, at) =>
      if |copies| != |ids| || !Selectable(thoughts, ids) then Refuse
      else
        CreationPlan(board.counters,
                     seq(|ids|, i requires 0 <= i < |ids| => CopyOf(thoughts, ids[i], copies[i])), at)
    case Reflow(edits) => ReflowPlan(thoughts, edits)
    case Split(edit, newId, content, annotations, at) => SplitPlan(thoughts, edit, newId, content, annotations, at)
    case Merge(ids, content, annotations, at) => MergePlan(thoughts, ids, content, annotations, at)
    case ReplaceExported(sources, reference, at) => ExportPlan(board, sources, reference, at)
    case _ => Refuse
  }

  // ---------------------------------------------------------------------------------------------
  // Carrying out

  function Rejected(s: State): Outcome { Outcome(s, false, []) }

  function Done(s: State, effects: seq<Effect>): Outcome { Outcome(s, true, effects) }

  /** Revisions that could be redone are dropped for rewritten thoughts. */
  function Settle(editors: map<ThoughtId, EditorHistory>, ids: seq<ThoughtId>): map<ThoughtId, EditorHistory> {
    map id | id in editors ::
      if id in ids then editors[id].(revisions := Take(editors[id].revisions, editors[id].cursor)) else editors[id]
  }

  function Performed(s: State, plan: Plan, refused: bool): Outcome {
    if plan.Refuse? then Rejected(s)
    else if plan.Nothing? then Done(s, [])
    else
      var sequence := NextSequence(s);
      if sequence.None? then Rejected(s)
      else if plan.TrackOnly? then Done(Tracked(s, sequence.value), [Commit(sequence.value)])
      else
        var operation := Operation(sequence.value, Batch(plan.forward), Batch(plan.inverse));
        var recorded := Recorded(s, operation, refused);
        if recorded.None? then Rejected(s)
        else Done(recorded.value.(editors := Settle(recorded.value.editors, plan.edited)), [Commit(sequence.value)])
  }

  /** Attachments that the old text did not have are new occurrences. */
  function EditRenewal(edit: Rewrite): seq<Annotation> {
    seq(|edit.afterAnnotations|, i requires 0 <= i < |edit.afterAnnotations| =>
      var annotation := edit.afterAnnotations[i];
      if annotation.kind.Attachment?
         && !(exists k :: 0 <= k < |edit.beforeAnnotations| && edit.beforeAnnotations[k].kind == annotation.kind)
      then Renewed(annotation) else annotation)
  }

  /** How many operations could be redone before the first that addresses the thought. */
  function RedoKept(history: seq<Operation>, from: nat, id: ThoughtId): (kept: nat)
    ensures from <= |history| ==> from <= kept <= |history|
    decreases |history| - from
  {
    if from >= |history| then from
    else if Addresses(history[from].forward, id) || Addresses(history[from].inverse, id) then from
    else RedoKept(history, from + 1, id)
  }

  function EditorOf(s: State, id: ThoughtId): EditorHistory {
    if id in s.editors then s.editors[id] else EditorHistory([], 0)
  }

  /** The state after an edit, before its sequence is tracked; `None` if there is none to make. */
  function Unnumbered(s: State, edit: Rewrite): Option<State> {
    var allotted, sequence := Allotted(s.board.counters, EditRenewal(edit)), NextSequence(s);
    if !Applies(s.board.thoughts, edit) || allotted.None? || sequence.None? then None
    else
      var annotations := allotted.value.1;
      var thought := Lookup(s.board.thoughts, edit.id).value.(content := edit.afterContent, annotations := annotations);
      var board := Checked(s.board.counters, Put(s.board.thoughts, edit.id, thought), s.board.lastDurable);
      if board.None? then None
      else
        var editor := EditorOf(s, edit.id);
        var revision := Revision(sequence.value, edit.beforeContent, edit.afterContent, edit.beforeAnnotations,
                                 annotations);
        Some(s.(board := board.value,
                history := Take(s.history, RedoKept(s.history, s.cursor, edit.id)),
                editors := s.editors[edit.id := EditorHistory(Take(editor.revisions, editor.cursor) + [revision],
                                                              editor.cursor + 1)]))
  }

  function Edited(s: State, edit: Rewrite, refused: bool): Outcome {
    if !Applies(s.board.thoughts, edit) || refused then Rejected(s)
    else if !IsChange(edit) then Done(s, [])
    else
      var after := Unnumbered(s, edit);
      if after.None? then Rejected(s) else Done(Tracked(after.value, s.highest + 1), [Commit(s.highest + 1)])
  }

  /** The operation that undo or redo would replay. */
  function NextOperation(s: State, undo: bool): Option<Operation> {
    if undo then (if 0 < s.cursor <= |s.history| then Some(s.history[s.cursor - 1]) else None)
    else (if s.cursor < |s.history| then Some(s.history[s.cursor]) else None)
  }

  function ReplayOf(operation: Operation, undo: bool): Mutation {
    if undo then operation.inverse else operation.forward
  }

  function MovedBoard(s: State, undo: bool): Option<State> {
    var operation := NextOperation(s, undo);
    if operation.None? then None
    else
      var board := ApplyMutation(s.board, ReplayOf(operation.value, undo));
      if board.None? then None
      else Some(s.(board := board.value, cursor := if undo then s.cursor - 1 else s.cursor + 1))
  }

  function NextRevision(editor: EditorHistory, undo: bool): Option<Revision> {
    if undo then
      (if 0 < editor.cursor <= |editor.revisions| then Some(editor.revisions[editor.cursor - 1]) else None)
    else (if editor.cursor < |editor.revisions| then Some(editor.revisions[editor.cursor]) else None)
  }

  /** A revision is replayed only on the exact text at its other end; the board is not validated again. */
  function MovedEditor(s: State, id: ThoughtId, undo: bool): Option<State> {
    var editor := EditorOf(s, id);
    var next := NextRevision(editor, undo);
    if next.None? then None
    else
      var r := next.value;
      var edit := if undo then Rewrite(id, r.afterContent, r.afterAnnotations, r.beforeContent, r.beforeAnnotations)
                  else Rewrite(id, r.beforeContent, r.beforeAnnotations, r.afterContent, r.afterAnnotations);
      if !Applies(s.board.thoughts, edit) then None
      else
        var thought := Lookup(s.board.thoughts, id).value.(content := edit.afterContent,
                                                           annotations := edit.afterAnnotations);
        Some(s.(board := s.board.(thoughts := Put(s.board.thoughts, id, thought)),
                editors := s.editors[id := editor.(cursor := if undo then editor.cursor - 1 else editor.cursor + 1)]))
  }

  function HistoryMoved(s: State, scope: Scope, undo: bool, refused: bool): Outcome {
    var sequence := NextSequence(s);
    if refused || sequence.None? then Rejected(s)
    else
      var moved := if scope.BoardScope? then MovedBoard(s, undo) else MovedEditor(s, scope.id, undo);
      if moved.None? then Rejected(s) else Done(Tracked(moved.value, sequence.value), [Commit(sequence.value)])
  }

  function StagedRemoval(s: State, ids: seq<ThoughtId>, at: Timestamp): Outcome {
    var sequence := NextSequence(s);
    if (exists i :: 0 <= i < |ids| && ids[i] !in s.locked) || !Selectable(s.board.thoughts, ids) || sequence.None?
    then Rejected(s)
    else
      var operation := Operation(sequence.value, Batch(Deletions(ids, Some(at))), Batch(Deletions(ids, None)));
      var staged := Staged(s, operation);
      if staged.None? then Rejected(s) else Done(staged.value, [Commit(sequence.value)])
  }

  // ---------------------------------------------------------------------------------------------
  // Clipboard

  function SourcesOf(thoughts: seq<Entry>, ids: seq<ThoughtId>): seq<Source>
    requires AllLive(thoughts, ids)
  {
    seq(|ids|, i requires 0 <= i < |ids| => SourceOf(thoughts, ids[i]))
  }

  /** A second request under the same identity writes again but keeps the first capture. */
  function ClipboardRequested(s: State, request: RequestId, ids: seq<ThoughtId>, cut: bool, at: Timestamp): Outcome {
    if !Selectable(s.board.thoughts, ids) then Rejected(s)
    else
      var sources := SourcesOf(s.board.thoughts, ids);
      var clipboard := if request in s.clipboard then s.clipboard
                       else s.clipboard[request := PendingClipboard(sources, cut, at)];
      Done(s.(clipboard := clipboard), [WriteClipboard(request)])
  }

  function SourceIds(sources: seq<Source>): seq<ThoughtId> {
    seq(|sources|, i requires 0 <= i < |sources| => sources[i].id)
  }

  /** The entry is gone whatever comes of it. */
  function ClipboardFinished(s: State, request: RequestId, written: bool, refused: bool): Outcome {
    if request !in s.clipboard then Done(s, [])
    else
      var entry := s.clipboard[request];
      var rest := s.(clipboard := s.clipboard - {request});
      if !written then Done(rest, [Notify])
      else if !entry.cut then Done(rest, [])
      else if !SourcesMatch(s.board.thoughts, entry.sources) then Done(rest, [Notify])
      else if exists i :: 0 <= i < |entry.sources| && entry.sources[i].id in s.locked then Rejected(rest)
      else Performed(rest, PlanOf(s.board, Delete(SourceIds(entry.sources), entry.at)), refused)
  }

  // ---------------------------------------------------------------------------------------------
  // Persistence

  /** Only the first pending sequence can be acknowledged. */
  function Acknowledged(s: State, sequence: nat, refused: bool): Outcome {
    if s.pending == [] || s.pending[0] != sequence then Rejected(s)
    else
      var committed := CommittedDeferred(s, sequence, refused);
      if committed.None? then Rejected(s)
      else
        var c := committed.value;
        var durable := if c.board.lastDurable < sequence then sequence else c.board.lastDurable;
        Done(Refreshed(c.(pending := c.pending[1..], board := c.board.(lastDurable := durable))), [])
  }

  /** Of several failures the lowest is shown. */
  function FailureShown(s: State, sequence: nat, code: Code): Outcome {
    if sequence !in s.pending then Rejected(s)
    else
      var failed := if s.durability.Failed? && s.durability.failed < sequence then s.durability.failed else sequence;
      Done(s.(durability := Failed(s.board.lastDurable, failed, code)), [Notify])
  }

  function Retried(s: State, sequence: nat): Outcome {
    if !s.durability.Failed? || s.durability.code == RecoveryCapacity || s.durability.failed != sequence
       || sequence !in s.pending
    then Rejected(s)
    else Done(s.(durability := Outstanding(s.board.lastDurable, s.pending[|s.pending| - 1])), [RetryStorage(sequence)])
  }

  function Persistence(s: State, action: Action, refused: bool): Outcome {
    match action
    case PersistenceCommitted(sequence) => Acknowledged(s, sequence, refused)
    case PersistenceFailed(sequence, code) => FailureShown(s, sequence, code)
    case RetryPersistence(sequence) => Retried(s, sequence)
    case _ => Rejected(s)
  }

  // ---------------------------------------------------------------------------------------------
  // Locks

  function Transition(s: State, action: Action): Outcome {
    match action
    case BeginSubmission(ids) =>
      if ids == [] || !AllLive(s.board.thoughts, ids) || exists i :: 0 <= i < |ids| && ids[i] in s.locked
      then Rejected(s)
      else Done(s.(locked := s.locked + set id | id in ids), [])
    case EndSubmission(ids) => Done(s.(locked := s.locked - set id | id in ids), [])
    case _ => Rejected(s)
  }

  /** The thoughts whose lock an action respects. */
  function Guarded(action: Action): seq<ThoughtId> {
    match action
    case Edit(edit) => [edit.id]
    case Delete(ids, _) => ids
    case Rename(id, _) => [id]
    case Present(ids, _) => ids
    case Move(ids, moved, _) => ids + moved
    case Duplicate(ids, _, _) => ids
    case Reflow(edits) => EditIds(edits)
    case Split(edit, _, _, _, _) => [edit.id]
    case Merge(ids, _, _, _) => ids
    case ReplaceExported(sources, _, _) => SourceIds(sources)
    case Cut(_, ids, _) => ids
    case Undo(scope) => if scope.EditorScope? then [scope.id] else []
    case Redo(scope) => if scope.EditorScope? then [scope.id] else []
    case _ => []
  }

  predicate ReplayLocked(s: State, undo: bool) {
    var operation := NextOperation(s, undo);
    operation.Some? && exists id :: id in s.locked && Addresses(ReplayOf(operation.value, undo), id)
  }

  predicate LockedOut(s: State, action: Action) {
    || (exists i :: 0 <= i < |Guarded(action)| && Guarded(action)[i] in s.locked)
    || (action.Undo? && action.scope.BoardScope? && ReplayLocked(s, true))
    || (action.Redo? && action.scope.BoardScope? && ReplayLocked(s, false))
  }

  /** Starts a durable change; refused while storage has failed. */
  predicate Mutates(action: Action) {
    match action
    case Navigate | Copy(_, _) | ClipboardResult(_, _) | BeginSubmission(_) | EndSubmission(_) => false
    case PersistenceCommitted(_) | PersistenceFailed(_, _) | RetryPersistence(_) => false
    case _ => true
  }

  predicate Stopped(s: State, action: Action) { LockedOut(s, action) || (s.durability.Failed? && Mutates(action)) }

  /** Carried out as a planned operation. */
  predicate Plans(action: Action) {
    match action
    case Create(_, _) | Delete(_, _) | Rename(_, _) | Present(_, _) | Move(_, _, _) | InsertSeparator => true
    case Duplicate(_, _, _) | Reflow(_) | Split(_, _, _, _, _) | Merge(_, _, _, _) | ReplaceExported(_, _, _) => true
    case _ => false
  }

  predicate Persists(action: Action) {
    action.PersistenceCommitted? || action.PersistenceFailed? || action.RetryPersistence?
  }

  function Handled(s: State, action: Action, refused: bool): Outcome {
    match action
    case RenameSession(changed) => Done(s, if changed then [CommitMetadata] else [])
    case Navigate => Done(s, [])
    case Edit(edit) => Edited(s, edit, refused)
    case StageRemoval(ids, at) => StagedRemoval(s, ids, at)
    case Copy(request, ids) => ClipboardRequested(s, request, ids, false, 0)
    case Cut(request, ids, at) => ClipboardRequested(s, request, ids, true, at)
    case ClipboardResult(request, written) =>
      ClipboardFinished(s, request, written && !s.durability.Failed?, refused)
    case Undo(scope) => HistoryMoved(s, scope, true, refused)
    case Redo(scope) => HistoryMoved(s, scope, false, refused)
    case _ => Transition(s, action)
  }

  /** One action: the guards, then its handler. */
  function Reduce(s: State, action: Action, refused: bool): Outcome {
    if Stopped(s, action) then Rejected(s)
    else if Plans(action) then Performed(s, PlanOf(s.board, action), refused)
    else if Persists(action) then Persistence(s, action, refused)
    else Handled(s, action, refused)
  }
}
