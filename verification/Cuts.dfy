/**
 * A cut deletes its sources at most once, and only after the clipboard has them. The request captures the sources; its
 * completion spends the request, compares the sources with the board, and then deletes all of them or none. However
 * the completions come, nothing is deleted twice.
 */
module Cuts {
  import opened Options
  import opened AttachmentNumbering
  import opened SessionBoards
  import opened Reducer
  import opened Durability
  import opened ValidBoards
  import E = Effects

  // ---------------------------------------------------------------------------------------------
  // Deleting exactly the sources

  /** The first `n` deletions of a batch over distinct live thoughts. */
  lemma {:induction false} DeletesExactly(thoughts: seq<Entry>, ids: seq<ThoughtId>, at: Timestamp, n: nat)
    requires n <= |ids| && DistinctIds(ids) && AllLive(thoughts, ids)
    ensures var batch := Batch(Deletions(ids, Some(at)));
            && MutatedBy(thoughts, batch, n).Some?
            && forall id :: Lookup(MutatedBy(thoughts, batch, n).value, id) ==
                 if id in ids[..n] then Some(Lookup(thoughts, id).value.(deletedAt := Some(at)))
                 else Lookup(thoughts, id)
  {
    if n > 0 {
      DeletesExactly(thoughts, ids, at, n - 1);
      var batch := Batch(Deletions(ids, Some(at)));
      var before, last := MutatedBy(thoughts, batch, n - 1).value, ids[n - 1];
      assert ids[..n] == ids[..n - 1] + [last];
      assert last !in ids[..n - 1] && LiveAt(thoughts, last);
      assert MutatedBy(thoughts, batch, n) == Deleted(before, last, Some(at));
      forall id
        ensures Lookup(MutatedBy(thoughts, batch, n).value, id) ==
                if id == last then Some(Lookup(thoughts, last).value.(deletedAt := Some(at))) else Lookup(before, id)
      {
        LookupAfterPut(before, last, Lookup(thoughts, last).value.(deletedAt := Some(at)), id);
      }
    }
  }

  /** `after` is `before` with exactly these thoughts deleted. */
  ghost predicate Removed(before: seq<Entry>, after: seq<Entry>, ids: seq<ThoughtId>, at: Timestamp) {
    forall id :: Lookup(after, id) ==
      if id in ids && LiveAt(before, id) then Some(Lookup(before, id).value.(deletedAt := Some(at)))
      else Lookup(before, id)
  }

  lemma DeletionRemoves(s: State, ids: seq<ThoughtId>, at: Timestamp, refused: bool)
    ensures var o := Performed(s, PlanOf(s.board, Delete(ids, at)), refused);
            o.state.board != s.board ==> o.ok && Removed(s.board.thoughts, o.state.board.thoughts, ids, at)
  {
    if Selectable(s.board.thoughts, ids) {
      DeletesExactly(s.board.thoughts, ids, at, |ids|);
      assert ids[..|ids|] == ids;
    }
  }

  // ---------------------------------------------------------------------------------------------
  // One completion

  /** What must hold for a completion to delete anything. */
  predicate MayDelete(s: State, request: RequestId, written: bool) {
    && request in s.clipboard && s.clipboard[request].cut && written && !s.durability.Failed?
    && SourcesMatch(s.board.thoughts, s.clipboard[request].sources)
    && forall i :: 0 <= i < |s.clipboard[request].sources| ==> s.clipboard[request].sources[i].id !in s.locked
  }

  /**
   * A completion changes the board only after success, if every source is still live and as captured and none
   * is locked; then it deletes the sources and nothing else. The request is spent in any case.
   */
  lemma CutDeletesItsSources(s: State, request: RequestId, written: bool, refused: bool)
    ensures var o := Reduce(s, ClipboardResult(request, written), refused);
            && request !in o.state.clipboard
            && (o.state.board != s.board ==>
                  && MayDelete(s, request, written) && o.ok
                  && Removed(s.board.thoughts, o.state.board.thoughts, SourceIds(s.clipboard[request].sources),
                             s.clipboard[request].at))
  {
    var done := written && !s.durability.Failed?;
    FinishedDeletes(s, request, done, refused);
  }

  lemma FinishedDeletes(s: State, request: RequestId, written: bool, refused: bool)
    ensures var o := ClipboardFinished(s, request, written, refused);
            && request !in o.state.clipboard
            && (o.state.board != s.board ==>
                  && request in s.clipboard && s.clipboard[request].cut && written && o.ok
                  && SourcesMatch(s.board.thoughts, s.clipboard[request].sources)
                  && (forall i :: 0 <= i < |s.clipboard[request].sources| ==>
                        s.clipboard[request].sources[i].id !in s.locked)
                  && Removed(s.board.thoughts, o.state.board.thoughts, SourceIds(s.clipboard[request].sources),
                             s.clipboard[request].at))
  {
    if request in s.clipboard {
      var entry, rest := s.clipboard[request], s.(clipboard := s.clipboard - {request});
      DeletionRemoves(rest, SourceIds(entry.sources), entry.at, refused);
      PerformedKeepsClipboard(rest, PlanOf(s.board, Delete(SourceIds(entry.sources), entry.at)), refused);
    }
  }

  lemma PerformedKeepsClipboard(s: State, plan: Plan, refused: bool)
    ensures Performed(s, plan, refused).state.clipboard == s.clipboard
  {
  }

  // ---------------------------------------------------------------------------------------------
  // Exactly when a completion deletes

  /** A capture of distinct thoughts, of at least one. */
  predicate Captured(pending: PendingClipboard) { pending.sources != [] && DistinctIds(SourceIds(pending.sources)) }

  lemma MatchingAreLive(thoughts: seq<Entry>, sources: seq<Source>)
    requires SourcesMatch(thoughts, sources)
    ensures AllLive(thoughts, SourceIds(sources))
  {
    forall i | 0 <= i < |sources|
      ensures LiveAt(thoughts, SourceIds(sources)[i])
    {
      assert SourceIds(sources)[i] == sources[i].id;
    }
  }

  /** Deleting a selection goes through exactly if it is not refused and a sequence is left. */
  lemma SelectionIsDeleted(s: State, ids: seq<ThoughtId>, at: Timestamp, refused: bool)
    requires Valid(s.board.thoughts) && Selectable(s.board.thoughts, ids)
    ensures var o := Performed(s, PlanOf(s.board, Delete(ids, at)), refused);
            && o.ok == (E.SequenceLeft(s) && !refused)
            && (if o.ok then Removed(s.board.thoughts, o.state.board.thoughts, ids, at) && o.state.board != s.board
                             && o.effects == [Commit(s.highest + 1)]
                else o.state == s && o.effects == [])
  {
    var action := Delete(ids, at);
    E.PlanReaches(s.board, action);
    E.PerformedAsAsked(s, action, PlanOf(s.board, action), refused);
    E.ThesePass(s.board, action);
    var o := Performed(s, PlanOf(s.board, action), refused);
    if o.ok {
      assert E.Fulfilled(s.board, o.state.board.thoughts, action);
      assert E.Gone(s.board.thoughts, o.state.board.thoughts, ids[0], at);
      GoneAreRemoved(s.board.thoughts, o.state.board.thoughts, ids, at);
    }
  }

  lemma GoneAreRemoved(before: seq<Entry>, after: seq<Entry>, ids: seq<ThoughtId>, at: Timestamp)
    requires AllLive(before, ids) && E.Only(before, after, ids)
    requires forall i :: 0 <= i < |ids| ==> E.Gone(before, after, ids[i], at)
    ensures Removed(before, after, ids, at)
  {
    forall id
      ensures Lookup(after, id) ==
              if id in ids && LiveAt(before, id) then Some(Lookup(before, id).value.(deletedAt := Some(at)))
              else Lookup(before, id)
    {
      if id in ids {
        var i :| 0 <= i < |ids| && ids[i] == id;
        assert E.Gone(before, after, ids[i], at);
      }
    }
  }

  /** Something still stands in the way of a completed cut, and is reported as an error. */
  predicate Hindered(s: State, request: RequestId, refused: bool)
    requires request in s.clipboard
  {
    || (exists i :: 0 <= i < |s.clipboard[request].sources| && s.clipboard[request].sources[i].id in s.locked)
    || !E.SequenceLeft(s) || refused
  }

  /**
   * On a valid board a completion deletes the captured sources, and changes the board at all, exactly if it reports
   * success for a cut, storage works, every source is as captured and unlocked, and a sequence is left. What is told
   * apart otherwise: a source that changed or a failed write is a notice, a lock or a missing sequence an error.
   */
  lemma CompletionsDeleteExactly(s: State, request: RequestId, written: bool, refused: bool)
    requires Valid(s.board.thoughts) && (request in s.clipboard ==> Captured(s.clipboard[request]))
    ensures var o := Reduce(s, ClipboardResult(request, written), refused);
            var deletes := MayDelete(s, request, written) && E.SequenceLeft(s) && !refused;
            && (o.state.board != s.board <==> deletes)
            && (deletes ==> o.ok && o.effects == [Commit(s.highest + 1)]
                            && Removed(s.board.thoughts, o.state.board.thoughts,
                                       SourceIds(s.clipboard[request].sources), s.clipboard[request].at))
            && (!o.ok <==> request in s.clipboard && s.clipboard[request].cut && written && !s.durability.Failed?
                           && SourcesMatch(s.board.thoughts, s.clipboard[request].sources)
                           && Hindered(s, request, refused))
            && (o.ok && !deletes && request in s.clipboard ==>
                  o.effects == if s.clipboard[request].cut || !written || s.durability.Failed? then [Notify] else [])
  {
    if request in s.clipboard {
      var entry, rest := s.clipboard[request], s.(clipboard := s.clipboard - {request});
      if SourcesMatch(s.board.thoughts, entry.sources) {
        MatchingAreLive(s.board.thoughts, entry.sources);
        assert Selectable(s.board.thoughts, SourceIds(entry.sources));
        SelectionIsDeleted(rest, SourceIds(entry.sources), entry.at, refused);
      }
    }
    CompletionOutcome(s, request, written, refused);
  }

  lemma CompletionOutcome(s: State, request: RequestId, written: bool, refused: bool)
    ensures Reduce(s, ClipboardResult(request, written), refused) ==
            ClipboardFinished(s, request, written && !s.durability.Failed?, refused)
  {
  }

  // ---------------------------------------------------------------------------------------------
  // What is captured

  predicate CopiesOrCuts(action: Action) { action.Copy? || action.Cut? }

  /** The capture of a selection: its exact texts. */
  predicate Captures(thoughts: seq<Entry>, pending: PendingClipboard, ids: seq<ThoughtId>) {
    |pending.sources| == |ids| && forall i :: 0 <= i < |ids| ==>
      LiveAt(thoughts, ids[i]) &&
      pending.sources[i] == Source(ids[i], Lookup(thoughts, ids[i]).value.content,
                                   Lookup(thoughts, ids[i]).value.annotations)
  }

  lemma CapturedSelection(thoughts: seq<Entry>, pending: PendingClipboard, ids: seq<ThoughtId>)
    requires Selectable(thoughts, ids) && Captures(thoughts, pending, ids)
    ensures Captured(pending) && SourceIds(pending.sources) == ids && SourcesMatch(thoughts, pending.sources)
  {
    assert forall i :: 0 <= i < |ids| ==> SourceIds(pending.sources)[i] == ids[i];
  }

  /**
   * Copying is accepted exactly for a selection; cutting in addition only if none of it is locked and storage works.
   * A new request captures the exact texts; one that is known keeps its capture. Nothing else changes.
   */
  lemma RequestsCaptureSources(s: State, action: Action, refused: bool)
    requires CopiesOrCuts(action)
    ensures var o := Reduce(s, action, refused);
            && (o.ok <==> Selectable(s.board.thoughts, action.ids) && (action.Cut? ==> E.Free(s, action)))
            && o.state == s.(clipboard := o.state.clipboard)
            && (if o.ok then
                  && o.effects == [WriteClipboard(action.request)]
                  && o.state.clipboard.Keys == s.clipboard.Keys + {action.request}
                  && (forall request :: request in s.clipboard ==> o.state.clipboard[request] == s.clipboard[request])
                  && (action.request !in s.clipboard ==>
                        && Captures(s.board.thoughts, o.state.clipboard[action.request], action.ids)
                        && o.state.clipboard[action.request].cut == action.Cut?
                        && (action.Cut? ==> o.state.clipboard[action.request].at == action.at))
                else o.state == s && o.effects == [])
  {
    assert forall id :: E.Concerns(action, id) <==> id in Guarded(action);
  }

  /** A cut of unlocked thoughts that the clipboard confirms at once deletes exactly them. */
  lemma ConfirmedCutDeletes(s: State, request: RequestId, ids: seq<ThoughtId>, at: Timestamp, refused: bool)
    requires Valid(s.board.thoughts) && request !in s.clipboard && Reduce(s, Cut(request, ids, at), refused).ok
    ensures var t := Reduce(s, Cut(request, ids, at), refused).state;
            var o := Reduce(t, ClipboardResult(request, true), refused);
            && o.ok == (E.SequenceLeft(s) && !refused)
            && (if o.ok then Removed(s.board.thoughts, o.state.board.thoughts, ids, at) && ids != []
                else o.state.board == s.board)
  {
    RequestsCaptureSources(s, Cut(request, ids, at), refused);
    var t := Reduce(s, Cut(request, ids, at), refused).state;
    CapturedSelection(s.board.thoughts, t.clipboard[request], ids);
    forall i | 0 <= i < |t.clipboard[request].sources|
      ensures t.clipboard[request].sources[i].id !in t.locked
    {
      assert E.Concerns(Cut(request, ids, at), ids[i]);
    }
    CompletionsDeleteExactly(t, request, true, refused);
  }

  // ---------------------------------------------------------------------------------------------
  // Whole runs

  predicate Requests(input: Input, request: RequestId) {
    input.Act? && ((input.action.Cut? && input.action.request == request)
                   || (input.action.Copy? && input.action.request == request))
  }

  lemma PlansKeepClipboard(s: State, action: Action, refused: bool)
    requires Plans(action)
    ensures Reduce(s, action, refused).state.clipboard == s.clipboard
  {
    if !Stopped(s, action) { PerformedKeepsClipboard(s, PlanOf(s.board, action), refused); }
  }

  lemma PersistenceKeepsClipboard(s: State, action: Action, refused: bool)
    requires Persists(action)
    ensures Persistence(s, action, refused).state.clipboard == s.clipboard
  {
  }

  lemma HandledAddsNone(s: State, action: Action, refused: bool, request: RequestId)
    requires !Plans(action) && !Persists(action)
    requires !(action.Cut? && action.request == request) && !(action.Copy? && action.request == request)
    ensures request in Handled(s, action, refused).state.clipboard ==> request in s.clipboard
  {
    if action.ClipboardResult? {
      FinishedKeepsOthers(s, action.request, action.written && !s.durability.Failed?, refused, request);
    }
  }

  lemma OnlyRequestsAdd(s: State, action: Action, refused: bool, request: RequestId)
    requires !(action.Cut? && action.request == request) && !(action.Copy? && action.request == request)
    ensures request in Reduce(s, action, refused).state.clipboard ==> request in s.clipboard
  {
    if Stopped(s, action) {
    } else if Plans(action) {
      PlansKeepClipboard(s, action, refused);
    } else if Persists(action) {
      PersistenceKeepsClipboard(s, action, refused);
    } else {
      HandledAddsNone(s, action, refused, request);
    }
  }

  lemma FinishedKeepsOthers(s: State, request: RequestId, written: bool, refused: bool, other: RequestId)
    ensures other in ClipboardFinished(s, request, written, refused).state.clipboard ==> other in s.clipboard
  {
    if request in s.clipboard {
      var entry, rest := s.clipboard[request], s.(clipboard := s.clipboard - {request});
      PerformedKeepsClipboard(rest, PlanOf(s.board, Delete(SourceIds(entry.sources), entry.at)), refused);
    }
  }

  /** A step in which the completion of this request changed the board. */
  predicate DeletesAt(s: State, input: Input, request: RequestId) {
    input.Act? && input.action.ClipboardResult? && input.action.request == request
    && Step(s, input).state.board != s.board
  }

  function Deletes(s: State, inputs: seq<Input>, request: RequestId): nat {
    if inputs == [] then 0
    else
      var before := inputs[..|inputs| - 1];
      Deletes(s, before, request) + if DeletesAt(After(s, before), inputs[|inputs| - 1], request) then 1 else 0
  }

  function Open(s: State, request: RequestId): nat { if request in s.clipboard then 1 else 0 }

  /** However often completions arrive, a request deletes at most once, and not at all if it was never made. */
  lemma {:induction false} CutsOnceAtMost(s: State, inputs: seq<Input>, request: RequestId)
    requires forall i :: 0 <= i < |inputs| ==> !Requests(inputs[i], request)
    ensures Deletes(s, inputs, request) + Open(After(s, inputs), request) <= Open(s, request)
  {
    if inputs != [] {
      var before := inputs[..|inputs| - 1];
      CutsOnceAtMost(s, before, request);
      CutStep(After(s, before), inputs[|inputs| - 1], request);
    }
  }

  lemma CutStep(s: State, input: Input, request: RequestId)
    requires !Requests(input, request)
    ensures (if DeletesAt(s, input, request) then 1 else 0) + Open(Step(s, input).state, request) <= Open(s, request)
  {
    match input
    case Act(action, refused) =>
      OnlyRequestsAdd(s, action, refused, request);
      if action.ClipboardResult? && action.request == request {
        CutDeletesItsSources(s, request, action.written, refused);
      }
    case Shot(operation, refused) =>
  }

  /** Every request on record captured a selection. */
  predicate AllCaptured(s: State) { forall request :: request in s.clipboard ==> Captured(s.clipboard[request]) }

  lemma CapturedStay(s: State, t: State)
    requires AllCaptured(s)
    requires forall request :: request in t.clipboard ==>
               (request in s.clipboard && t.clipboard[request] == s.clipboard[request])
               || Captured(t.clipboard[request])
    ensures AllCaptured(t)
  {
  }

  lemma HandledCaptures(s: State, action: Action, refused: bool)
    requires AllCaptured(s) && !Plans(action) && !Persists(action) && !CopiesOrCuts(action)
    ensures AllCaptured(Handled(s, action, refused).state)
  {
    if action.ClipboardResult? && action.request in s.clipboard {
      var entry, rest := s.clipboard[action.request], s.(clipboard := s.clipboard - {action.request});
      PerformedKeepsClipboard(rest, PlanOf(s.board, Delete(SourceIds(entry.sources), entry.at)), refused);
      CapturedStay(s, rest);
    }
  }

  lemma ReduceCaptures(s: State, action: Action, refused: bool)
    requires AllCaptured(s)
    ensures AllCaptured(Reduce(s, action, refused).state)
  {
    if CopiesOrCuts(action) {
      RequestsCaptureSources(s, action, refused);
      var o := Reduce(s, action, refused);
      if o.ok && action.request !in s.clipboard {
        CapturedSelection(s.board.thoughts, o.state.clipboard[action.request], action.ids);
      }
      CapturedStay(s, o.state);
    } else if Stopped(s, action) {
    } else if Plans(action) {
      PlansKeepClipboard(s, action, refused);
    } else if Persists(action) {
      PersistenceKeepsClipboard(s, action, refused);
    } else {
      HandledCaptures(s, action, refused);
    }
  }

  /** So completions delete exactly, as said above, along every run. */
  lemma {:induction false} CapturesAreSelections(board: Board, inputs: seq<Input>)
    ensures AllCaptured(After(Initial(board), inputs))
  {
    if inputs != [] {
      var before := inputs[..|inputs| - 1];
      CapturesAreSelections(board, before);
      match inputs[|inputs| - 1]
      case Act(action, refused) => ReduceCaptures(After(Initial(board), before), action, refused);
      case Shot(operation, refused) =>
    }
  }
}
