/** What each action on thoughts leaves on the board, and exactly when it is accepted. */
module Effects {
  // `Fulfilled` says what an action asks the board to become, thought by thought, without plans and mutations. The laws
  // say that an accepted action leads to such a board, and that an action is accepted exactly if nothing it names is
  // locked, its request makes sense, a sequence is left, and the board it asks for passes validation.

  import opened Options
  import opened AttachmentNumbering
  import opened SessionBoards
  import opened Reducer
  import opened Durability
  import opened Ordinals
  import opened ValidBoards
  import U = Undo

  // ---------------------------------------------------------------------------------------------
  // What an action asks for

  /** Every other thought is as it was. */
  ghost predicate Only(before: seq<Entry>, after: seq<Entry>, ids: seq<ThoughtId>) {
    forall id :: id !in ids ==> Lookup(after, id) == Lookup(before, id)
  }

  /** The thought is there as before, but deleted. */
  predicate Gone(before: seq<Entry>, after: seq<Entry>, id: ThoughtId, at: Timestamp) {
    Lookup(before, id).Some? && Lookup(after, id) == Some(Lookup(before, id).value.(deletedAt := Some(at)))
  }

  /** The thought is there as before, but with this text. */
  predicate Reads(before: seq<Entry>, after: seq<Entry>, id: ThoughtId, content: string, annotations: seq<Annotation>) {
    Lookup(before, id).Some? &&
    Lookup(after, id) == Some(Lookup(before, id).value.(content := content, annotations := annotations))
  }

  predicate Shows(before: seq<Entry>, after: seq<Entry>, id: ThoughtId, presentation: nat) {
    Lookup(before, id).Some? && Lookup(after, id) == Some(Lookup(before, id).value.(presentation := presentation))
  }

  predicate IsCalled(before: seq<Entry>, after: seq<Entry>, id: ThoughtId, name: Option<string>) {
    Lookup(before, id).Some? && Lookup(after, id) == Some(Lookup(before, id).value.(name := name))
  }

  /** The thought is new, or the deleted one that has the identity is back as it was. */
  predicate Made(before: seq<Entry>, after: seq<Entry>, id: ThoughtId, thought: Thought) {
    Lookup(after, id) == Some(if Lookup(before, id).None? then thought
                              else Lookup(before, id).value.(deletedAt := None))
  }

  /** Attachments of a creation count as new occurrences unless it says that they are given. */
  function Offered(item: Creation): seq<Annotation> {
    if item.preserve then item.annotations else AllRenewed(item.annotations)
  }

  /** The counters after numbering the first `n` creations, one after the other. */
  function CountersAfter(counters: Counters, items: seq<Creation>, n: nat): Counters
    requires n <= |items|
  {
    if n == 0 then counters
    else
      var offered := Offered(items[n - 1]);
      Advanced(CountersAfter(counters, items, n - 1), offered, |offered|)
  }

  predicate HasNumbers(counters: Counters, items: seq<Creation>, i: nat)
    requires i < |items|
  {
    Allotted(CountersAfter(counters, items, i), Offered(items[i])).Some?
  }

  predicate NumbersLast(counters: Counters, items: seq<Creation>) {
    forall i :: 0 <= i < |items| ==> HasNumbers(counters, items, i)
  }

  function NewThought(counters: Counters, items: seq<Creation>, i: nat): Thought
    requires i < |items|
  {
    Thought(items[i].content, AllNumbered(CountersAfter(counters, items, i), Offered(items[i])), items[i].name,
            items[i].presentation, None)
  }

  ghost predicate Added(board: Board, after: seq<Entry>, items: seq<Creation>) {
    && Only(board.thoughts, after, IdsOf(items))
    && forall i :: 0 <= i < |items| ==> Made(board.thoughts, after, items[i].id, NewThought(board.counters, items, i))
  }

  /** Copies have everything but identity and attachment numbers from their originals. */
  function Copies(thoughts: seq<Entry>, ids: seq<ThoughtId>, copies: seq<ThoughtId>): seq<Creation>
    requires |copies| == |ids| && AllLive(thoughts, ids)
  {
    seq(|ids|, i requires 0 <= i < |ids| =>
      var original := Lookup(thoughts, ids[i]).value;
      Creation(copies[i], original.content, original.annotations, false, original.name, original.presentation))
  }

  /** The board that the action asks for. */
  ghost predicate Fulfilled(board: Board, after: seq<Entry>, action: Action) {
    var before := board.thoughts;
    match action
    case Create(items, _) => Added(board, after, items)
    case Duplicate(ids, copies, _) =>
      |copies| == |ids| && AllLive(before, ids) && Added(board, after, Copies(before, ids, copies))
    case Delete(ids, at) => Only(before, after, ids) && forall i :: 0 <= i < |ids| ==> Gone(before, after, ids[i], at)
    case Rename(id, name) => Only(before, after, [id]) && IsCalled(before, after, id, name)
    case Present(ids, presentation) =>
      Only(before, after, ids) && forall i :: 0 <= i < |ids| ==> Shows(before, after, ids[i], presentation)
    case Reflow(edits) =>
      && Only(before, after, EditIds(edits))
      && forall i :: 0 <= i < |edits| ==>
           Reads(before, after, edits[i].id, edits[i].afterContent, edits[i].afterAnnotations)
    case Split(edit, newId, content, annotations, _) =>
      && Only(before, after, [edit.id, newId])
      && Reads(before, after, edit.id, edit.afterContent, edit.afterAnnotations)
      && Made(before, after, newId,
              Thought(content, annotations, None, Lookup(before, edit.id).value.presentation, None))
    case Merge(ids, content, annotations, at) =>
      && Only(before, after, ids) && ids != [] && Reads(before, after, ids[0], content, annotations)
      && forall i :: 1 <= i < |ids| ==> Gone(before, after, ids[i], at)
    case ReplaceExported(sources, reference, at) =>
      && Only(before, after, SourceIds(sources) + [reference.id])
      && Made(before, after, reference.id, NewThought(board.counters, [reference], 0))
      && forall i :: 0 <= i < |sources| && sources[i].id != reference.id ==> Gone(before, after, sources[i].id, at)
    case _ => Only(before, after, [])
  }

  predicate NewIds(thoughts: seq<Entry>, ids: seq<ThoughtId>) {
    DistinctIds(ids) && forall i :: 0 <= i < |ids| ==> !LiveAt(thoughts, ids[i])
  }

  /** The request makes sense on this board. */
  predicate Possible(board: Board, action: Action) {
    var thoughts := board.thoughts;
    match action
    case Create(items, _) => items != [] && NewIds(thoughts, IdsOf(items)) && NumbersLast(board.counters, items)
    case Duplicate(ids, copies, _) =>
      && |copies| == |ids| && Selectable(thoughts, ids) && NewIds(thoughts, copies)
      && NumbersLast(board.counters, Copies(thoughts, ids, copies))
    case Delete(ids, _) => Selectable(thoughts, ids)
    case Rename(id, _) => LiveAt(thoughts, id)
    case Present(ids, _) => Selectable(thoughts, ids)
    case Reflow(edits) =>
      && edits != [] && DistinctIds(EditIds(edits))
      && forall i :: 0 <= i < |edits| ==> Applies(thoughts, edits[i]) && IsChange(edits[i])
    case Split(edit, newId, _, _, _) => Applies(thoughts, edit) && !LiveAt(thoughts, newId)
    case Merge(ids, _, _, _) => |ids| >= 2 && Selectable(thoughts, ids)
    case ReplaceExported(sources, reference, _) =>
      && sources != [] && SourcesMatch(thoughts, sources) && DistinctIds(SourceIds(sources))
      && NumbersLast(board.counters, [reference])
      && (LiveAt(thoughts, reference.id) ==> reference.id in SourceIds(sources))
    case Move(_, moved, _) => AllLive(thoughts, moved)
    case InsertSeparator => true
    case _ => false
  }

  /** There is nothing to change; then no sequence is used either. */
  predicate Idle(board: Board, action: Action) {
    match action
    case Move(_, _, unmoved) => unmoved
    case Present(ids, presentation) =>
      Selectable(board.thoughts, ids) &&
      forall i :: 0 <= i < |ids| ==> Lookup(board.thoughts, ids[i]).value.presentation == presentation
    case Reflow(edits) =>
      edits == [] || (|edits| == 1 && Applies(board.thoughts, edits[0]) && !IsChange(edits[0]))
    case _ => false
  }

  /** A thought that gets the name it has uses a sequence but changes nothing. */
  predicate SameName(board: Board, action: Action) {
    action.Rename? && LiveAt(board.thoughts, action.id) && Lookup(board.thoughts, action.id).value.name == action.name
  }

  /** The thoughts on the board that an action names. */
  predicate Concerns(action: Action, id: ThoughtId) {
    match action
    case Edit(edit) => id == edit.id
    case Delete(ids, _) => id in ids
    case Rename(renamed, _) => id == renamed
    case Present(ids, _) => id in ids
    case Move(ids, moved, _) => id in ids || id in moved
    case Duplicate(ids, _, _) => id in ids
    case Reflow(edits) => id in EditIds(edits)
    case Split(edit, _, _, _, _) => id == edit.id
    case Merge(ids, _, _, _) => id in ids
    case ReplaceExported(sources, _, _) => id in SourceIds(sources)
    case Cut(_, ids, _) => id in ids
    case _ => false
  }

  /** Nothing that the action names is locked, and storage has not failed. */
  predicate Free(s: State, action: Action) {
    !s.durability.Failed? && forall id :: id in s.locked ==> !Concerns(action, id)
  }

  lemma StoppedUnlessFree(s: State, action: Action)
    requires Plans(action) || action.Edit?
    ensures Stopped(s, action) <==> !Free(s, action)
  {
    var guarded := Guarded(action);
    assert forall id :: Concerns(action, id) <==> id in guarded;
  }

  // ---------------------------------------------------------------------------------------------
  // One mutation

  /** The board is as the mutation expects it. */
  predicate Expected(thoughts: seq<Entry>, mutation: Mutation)
    requires U.HasId(mutation)
  {
    var found := Lookup(thoughts, mutation.id);
    match mutation
    case AddThought(id, _) => !LiveAt(thoughts, id)
    case SetDeletionExact(_, content, annotations, expected, _) =>
      found.Some? && found.value.content == content && found.value.annotations == annotations
      && found.value.deletedAt == expected
    case MoveThought(id) => LiveAt(thoughts, id)
    case ReplaceContent(id, content, annotations, _, _) => Matches(thoughts, id, content, annotations)
    case SetName(id, before, _) => LiveAt(thoughts, id) && found.value.name == before
    case _ => found.Some?
  }

  /** Deleting keeps an earlier time, and restoring a live thought changes nothing. */
  predicate IsDeleted(before: seq<Entry>, after: seq<Entry>, id: ThoughtId, at: Option<Timestamp>) {
    Lookup(before, id).Some? && Lookup(after, id).Some? &&
    (var was, now := Lookup(before, id).value, Lookup(after, id).value;
     now == was.(deletedAt := now.deletedAt) && now.deletedAt.Some? == at.Some? &&
     (was.deletedAt.Some? != at.Some? ==> now.deletedAt == at) &&
     (was.deletedAt.Some? == at.Some? ==> now.deletedAt == was.deletedAt))
  }

  predicate Leaves(before: seq<Entry>, after: seq<Entry>, mutation: Mutation)
    requires U.HasId(mutation)
  {
    match mutation
    case AddThought(id, thought) => Made(before, after, id, thought.(deletedAt := None))
    case SetDeletion(id, at) => IsDeleted(before, after, id, at)
    case SetDeletionExact(id, _, _, _, at) => IsDeleted(before, after, id, at)
    case MoveThought(id) => Lookup(after, id) == Lookup(before, id)
    case ReplaceContent(id, _, _, content, annotations) => Reads(before, after, id, content, annotations)
    case SetPresentation(id, presentation) => Shows(before, after, id, presentation)
    case SetName(id, _, name) => IsCalled(before, after, id, name)
  }

  /** A mutation is carried out exactly where the board is as it expects; it changes its thought, and no other. */
  lemma MutationsDoAsAsked(thoughts: seq<Entry>, mutation: Mutation)
    requires U.HasId(mutation)
    ensures Mutated(thoughts, mutation).Some? <==> Expected(thoughts, mutation)
    ensures Expected(thoughts, mutation) ==>
              && Only(thoughts, Mutated(thoughts, mutation).value, [mutation.id])
              && Leaves(thoughts, Mutated(thoughts, mutation).value, mutation)
  {
    assert Mutated(thoughts, mutation) == Single(thoughts, mutation);
    U.SingleActs(thoughts, mutation, mutation.id);
    forall id | id !in [mutation.id]
      ensures Single(thoughts, mutation).Some? ==>
                Lookup(Single(thoughts, mutation).value, id) == Lookup(thoughts, id)
    {
      U.SingleActs(thoughts, mutation, id);
    }
  }

  // ---------------------------------------------------------------------------------------------
  // Batches over distinct thoughts

  lemma BatchLeaves(thoughts: seq<Entry>, batch: seq<Mutation>, ids: seq<ThoughtId>)
    requires U.Separate(batch) && |ids| == |batch| && forall i :: 0 <= i < |batch| ==> batch[i].id == ids[i]
    requires U.AllGive(thoughts, batch, |batch|)
    ensures Mutated(thoughts, Batch(batch)).Some?
    ensures Only(thoughts, Mutated(thoughts, Batch(batch)).value, ids)
    ensures forall i :: 0 <= i < |batch| ==>
              Lookup(Mutated(thoughts, Batch(batch)).value, ids[i])
              == Some(U.On(batch[i], Lookup(thoughts, ids[i])).thought)
  {
    U.BatchActs(thoughts, batch, |batch|);
    var after := Mutated(thoughts, Batch(batch)).value;
    forall id | id !in ids
      ensures Lookup(after, id) == Lookup(thoughts, id)
    {
      assert forall i :: 0 <= i < |batch| ==> batch[i].id != id;
    }
    forall i | 0 <= i < |batch|
      ensures Lookup(after, ids[i]) == Some(U.On(batch[i], Lookup(thoughts, ids[i])).thought)
    {
      assert Lookup(after, batch[i].id) == Some(U.On(batch[i], Lookup(thoughts, batch[i].id)).thought);
    }
  }

  // ---------------------------------------------------------------------------------------------
  // Creations

  lemma AdditionsStep(counters: Counters, items: seq<Creation>, n: nat)
    requires n < |items|
    requires Additions(counters, items[..n]).Some? ==>
               Additions(counters, items[..n]).value.0 == CountersAfter(counters, items, n)
    ensures Additions(counters, items[..n + 1]) ==
            if Additions(counters, items[..n]).None? || !HasNumbers(counters, items, n) then None
            else
              Some((CountersAfter(counters, items, n + 1),
                    Additions(counters, items[..n]).value.1 +
                    [AddThought(items[n].id, NewThought(counters, items, n))]))
  {
    var all := items[..n + 1];
    assert |all| == n + 1 && all[..n] == items[..n] && all[n] == items[n];
    AdditionsOfMore(counters, all, items[..n], items[n]);
  }

  lemma AdditionsOfMore(counters: Counters, all: seq<Creation>, items: seq<Creation>, item: Creation)
    requires all != [] && all[..|all| - 1] == items && all[|all| - 1] == item
    ensures var before := Additions(counters, items);
            Additions(counters, all) ==
            if before.None? || Allotted(before.value.0, Offered(item)).None? then None
            else
              var allotted := Allotted(before.value.0, Offered(item)).value;
              var thought := Thought(item.content, allotted.1, item.name, item.presentation, None);
              Some((allotted.0, before.value.1 + [AddThought(item.id, thought)]))
  {
  }

  predicate AddsItems(items: seq<Creation>, thoughts: seq<Thought>, added: seq<Mutation>) {
    |added| <= |items| && |items| == |thoughts| &&
    forall i :: 0 <= i < |added| ==> added[i] == AddThought(items[i].id, thoughts[i])
  }

  function NewThoughts(counters: Counters, items: seq<Creation>): seq<Thought> {
    seq(|items|, i requires 0 <= i < |items| => NewThought(counters, items, i))
  }

  predicate NumbersUpTo(counters: Counters, items: seq<Creation>, n: nat)
    requires n <= |items|
  {
    forall i :: 0 <= i < n ==> HasNumbers(counters, items, i)
  }

  lemma MoreNumbers(counters: Counters, items: seq<Creation>, n: nat)
    requires n < |items|
    ensures NumbersUpTo(counters, items, n + 1) <==>
            NumbersUpTo(counters, items, n) && HasNumbers(counters, items, n)
  {
  }

  /** What additions come to: possible or not, the last counters, and one mutation for each of the first `n` items. */
  predicate ComesTo(additions: Option<(Counters, seq<Mutation>)>, possible: bool, end: Counters, items: seq<Creation>,
                    thoughts: seq<Thought>, n: nat)
  {
    && additions.Some? == possible
    && (possible ==> additions.value.0 == end && |additions.value.1| == n &&
                     AddsItems(items, thoughts, additions.value.1))
  }

  lemma OneMoreAddition(before: Option<(Counters, seq<Mutation>)>, after: Option<(Counters, seq<Mutation>)>,
                        possible: bool, last: bool, end: Counters, next: Counters, items: seq<Creation>,
                        thoughts: seq<Thought>, n: nat)
    requires n < |items| == |thoughts| && ComesTo(before, possible, end, items, thoughts, n)
    requires after == if before.None? || !last then None
                      else Some((next, before.value.1 + [AddThought(items[n].id, thoughts[n])]))
    ensures ComesTo(after, possible && last, next, items, thoughts, n + 1)
  {
  }

  lemma {:induction false} AdditionsUpTo(counters: Counters, items: seq<Creation>, thoughts: seq<Thought>, n: nat)
    requires n <= |items| && thoughts == NewThoughts(counters, items)
    ensures ComesTo(Additions(counters, items[..n]), NumbersUpTo(counters, items, n), CountersAfter(counters, items, n),
                    items, thoughts, n)
  {
    if n > 0 {
      var k := n - 1;
      AdditionsUpTo(counters, items, thoughts, k);
      MoreNumbers(counters, items, k);
      AdditionsStep(counters, items, k);
      OneMoreAddition(Additions(counters, items[..k]), Additions(counters, items[..n]),
                      NumbersUpTo(counters, items, k), HasNumbers(counters, items, k),
                      CountersAfter(counters, items, k), CountersAfter(counters, items, n), items, thoughts, k);
    }
  }

  lemma AdditionsAre(counters: Counters, items: seq<Creation>)
    ensures Additions(counters, items).Some? <==> NumbersLast(counters, items)
    ensures Additions(counters, items).Some? ==>
              |Additions(counters, items).value.1| == |items| &&
              AddsItems(items, NewThoughts(counters, items), Additions(counters, items).value.1)
  {
    AdditionsUpTo(counters, items, NewThoughts(counters, items), |items|);
    assert items[..|items|] == items;
  }

  /** New thoughts are added exactly if their identities differ and are not live. */
  lemma AdditionsReach(board: Board, items: seq<Creation>, added: seq<Mutation>)
    requires |added| == |items| && AddsItems(items, NewThoughts(board.counters, items), added)
    ensures Mutated(board.thoughts, Batch(added)).Some? <==> NewIds(board.thoughts, IdsOf(items))
    ensures NewIds(board.thoughts, IdsOf(items)) ==> Added(board, Mutated(board.thoughts, Batch(added)).value, items)
  {
    var ids := IdsOf(items);
    assert forall i :: 0 <= i < |added| ==> added[i].AddThought? && added[i].id == ids[i];
    AddedExactly(board.thoughts, added, ids);
    if NewIds(board.thoughts, ids) {
      var after := Mutated(board.thoughts, Batch(added)).value;
      forall i | 0 <= i < |items|
        ensures Made(board.thoughts, after, items[i].id, NewThought(board.counters, items, i))
      {
        assert Lookup(after, ids[i]) == Some(U.On(added[i], Lookup(board.thoughts, ids[i])).thought);
      }
    }
  }

  lemma AddedExactly(thoughts: seq<Entry>, added: seq<Mutation>, ids: seq<ThoughtId>)
    requires |ids| == |added| && forall i :: 0 <= i < |added| ==> added[i].AddThought? && added[i].id == ids[i]
    ensures Mutated(thoughts, Batch(added)).Some? <==> NewIds(thoughts, ids)
    ensures NewIds(thoughts, ids) ==>
              && Only(thoughts, Mutated(thoughts, Batch(added)).value, ids)
              && forall i :: 0 <= i < |added| ==>
                   Lookup(Mutated(thoughts, Batch(added)).value, ids[i])
                   == Some(U.On(added[i], Lookup(thoughts, ids[i])).thought)
  {
    if Mutated(thoughts, Batch(added)).Some? {
      U.AddedAreDistinct(thoughts, added, |added|);
      AddedWereNotLive(thoughts, added, ids);
    }
    if NewIds(thoughts, ids) {
      BatchLeaves(thoughts, added, ids);
    }
  }

  lemma AddedWereNotLive(thoughts: seq<Entry>, added: seq<Mutation>, ids: seq<ThoughtId>)
    requires |ids| == |added| && forall i :: 0 <= i < |added| ==> added[i].AddThought? && added[i].id == ids[i]
    requires U.Separate(added) && Mutated(thoughts, Batch(added)).Some?
    ensures forall i :: 0 <= i < |ids| ==> !LiveAt(thoughts, ids[i])
  {
    U.BatchActs(thoughts, added, |added|);
    forall i | 0 <= i < |ids|
      ensures !LiveAt(thoughts, ids[i])
    {
      assert U.On(added[i], Lookup(thoughts, added[i].id)).Gives?;
    }
  }

  lemma CreationReaches(board: Board, items: seq<Creation>, at: Timestamp)
    ensures var plan := CreationPlan(board.counters, items, at);
            && (plan.Perform? || plan.Refuse?)
            && (plan.Perform? <==> items != [] && NumbersLast(board.counters, items))
            && (plan.Perform? ==>
                  && (Mutated(board.thoughts, Batch(plan.forward)).Some? <==> NewIds(board.thoughts, IdsOf(items)))
                  && (Mutated(board.thoughts, Batch(plan.forward)).Some? ==>
                        Added(board, Mutated(board.thoughts, Batch(plan.forward)).value, items)))
  {
    AdditionsAre(board.counters, items);
    if Additions(board.counters, items).Some? {
      AdditionsReach(board, items, Additions(board.counters, items).value.1);
    }
  }

  // ---------------------------------------------------------------------------------------------
  // The other plans

  /** The plan of an action and the board it leads to. */
  ghost predicate Reaches(board: Board, action: Action) { LeadsTo(board, action, PlanOf(board, action)) }

  ghost predicate LeadsTo(board: Board, action: Action, plan: Plan) {
    match plan
    case Refuse => !Idle(board, action) && !Possible(board, action)
    case Nothing => Idle(board, action)
    case TrackOnly => SameName(board, action) && !Idle(board, action) && Possible(board, action)
    case Perform(forward, _, _) =>
      && !Idle(board, action) && !SameName(board, action)
      && (Possible(board, action) <==> Mutated(board.thoughts, Batch(forward)).Some?)
      && (Possible(board, action) ==> Fulfilled(board, Mutated(board.thoughts, Batch(forward)).value, action))
  }

  lemma DuplicationReaches(board: Board, ids: seq<ThoughtId>, copies: seq<ThoughtId>, at: Timestamp)
    ensures Reaches(board, Duplicate(ids, copies, at))
  {
    if |copies| == |ids| && Selectable(board.thoughts, ids) {
      var items := seq(|ids|, i requires 0 <= i < |ids| => CopyOf(board.thoughts, ids[i], copies[i]));
      assert items == Copies(board.thoughts, ids, copies);
      assert IdsOf(items) == copies;
      CreationReaches(board, items, at);
    }
  }

  lemma DeletionReaches(board: Board, ids: seq<ThoughtId>, at: Timestamp)
    ensures Reaches(board, Delete(ids, at))
  {
    if Selectable(board.thoughts, ids) { BatchLeaves(board.thoughts, Deletions(ids, Some(at)), ids); }
  }

  lemma NamingReaches(board: Board, id: ThoughtId, name: Option<string>)
    ensures Reaches(board, Rename(id, name))
  {
    var plan := PlanOf(board, Rename(id, name));
    if plan.Perform? { BatchLeaves(board.thoughts, plan.forward, [id]); }
  }

  lemma {:induction false} DifferingDiffer(thoughts: seq<Entry>, ids: seq<ThoughtId>, presentation: nat, id: ThoughtId)
    requires AllLive(thoughts, ids)
    ensures id in Differing(thoughts, ids, presentation) <==>
            id in ids && Lookup(thoughts, id).value.presentation != presentation
  {
    if ids != [] {
      var n := |ids| - 1;
      DifferingDiffer(thoughts, ids[..n], presentation, id);
      assert ids == ids[..n] + [ids[n]];
    }
  }

  lemma PresentationReaches(board: Board, ids: seq<ThoughtId>, presentation: nat)
    ensures Reaches(board, Present(ids, presentation))
  {
    if Selectable(board.thoughts, ids) {
      var thoughts := board.thoughts;
      var changed := Differing(thoughts, ids, presentation);
      forall id
        ensures id in changed <==> id in ids && Lookup(thoughts, id).value.presentation != presentation
      {
        DifferingDiffer(thoughts, ids, presentation, id);
      }
      if changed == [] {
        assert forall i :: 0 <= i < |ids| ==> ids[i] !in changed;
      } else {
        assert changed[0] in changed;
        U.DifferingAreDistinct(thoughts, ids, presentation);
        PresentedReach(thoughts, ids, presentation, changed);
      }
    }
  }

  lemma PresentedReach(thoughts: seq<Entry>, ids: seq<ThoughtId>, presentation: nat, changed: seq<ThoughtId>)
    requires AllLive(thoughts, ids) && DistinctIds(changed)
    requires forall id :: id in changed <==> id in ids && Lookup(thoughts, id).value.presentation != presentation
    ensures var batch := seq(|changed|, i requires 0 <= i < |changed| => SetPresentation(changed[i], presentation));
            && Mutated(thoughts, Batch(batch)).Some?
            && var after := Mutated(thoughts, Batch(batch)).value;
               Only(thoughts, after, ids) && forall i :: 0 <= i < |ids| ==> Shows(thoughts, after, ids[i], presentation)
  {
    var batch := seq(|changed|, i requires 0 <= i < |changed| => SetPresentation(changed[i], presentation));
    forall i | 0 <= i < |batch|
      ensures U.On(batch[i], Lookup(thoughts, batch[i].id)).Gives?
    {
      assert changed[i] in changed;
    }
    BatchLeaves(thoughts, batch, changed);
    var after := Mutated(thoughts, Batch(batch)).value;
    forall i | 0 <= i < |ids|
      ensures Shows(thoughts, after, ids[i], presentation)
    {
      if ids[i] in changed {
        var j :| 0 <= j < |changed| && changed[j] == ids[i];
        assert Lookup(after, changed[j]) == Some(U.On(batch[j], Lookup(thoughts, changed[j])).thought);
      }
    }
  }

  lemma ReflowReaches(board: Board, edits: seq<Rewrite>)
    ensures Reaches(board, Reflow(edits))
  {
    var plan := PlanOf(board, Reflow(edits));
    if plan.Perform? {
      assert forall i :: 0 <= i < |edits| ==> EditIds(edits)[i] == plan.forward[i].id;
      BatchLeaves(board.thoughts, plan.forward, EditIds(edits));
      var after := Mutated(board.thoughts, Batch(plan.forward)).value;
      forall i | 0 <= i < |edits|
        ensures Reads(board.thoughts, after, edits[i].id, edits[i].afterContent, edits[i].afterAnnotations)
      {
        var id := EditIds(edits)[i];
        assert Lookup(after, id) == Some(U.On(plan.forward[i], Lookup(board.thoughts, id)).thought);
      }
    }
  }

  lemma SplitReaches(board: Board, edit: Rewrite, newId: ThoughtId, content: string, annotations: seq<Annotation>,
                     at: Timestamp)
    ensures Reaches(board, Split(edit, newId, content, annotations, at))
  {
    var plan := PlanOf(board, Split(edit, newId, content, annotations, at));
    if plan.Perform? {
      if Mutated(board.thoughts, Batch(plan.forward)).Some? {
        U.SplitIsSeparate(board.thoughts, edit, newId, content, annotations, at);
        U.BatchActs(board.thoughts, plan.forward, 2);
        assert U.On(plan.forward[1], Lookup(board.thoughts, plan.forward[1].id)).Gives?;
      }
      if Possible(board, Split(edit, newId, content, annotations, at)) {
        assert U.Separate(plan.forward);
        BatchLeaves(board.thoughts, plan.forward, [edit.id, newId]);
        var after := Mutated(board.thoughts, Batch(plan.forward)).value;
        assert Lookup(after, [edit.id, newId][0])
            == Some(U.On(plan.forward[0], Lookup(board.thoughts, [edit.id, newId][0])).thought);
        assert Lookup(after, [edit.id, newId][1])
            == Some(U.On(plan.forward[1], Lookup(board.thoughts, [edit.id, newId][1])).thought);
      }
    }
  }

  lemma MergeReaches(board: Board, ids: seq<ThoughtId>, content: string, annotations: seq<Annotation>, at: Timestamp)
    ensures Reaches(board, Merge(ids, content, annotations, at))
  {
    if |ids| >= 2 && Selectable(board.thoughts, ids) {
      var first := SourceOf(board.thoughts, ids[0]);
      var edit := Rewrite(first.id, first.content, first.annotations, content, annotations);
      var plan := PlanOf(board, Merge(ids, content, annotations, at));
      var deletions := plan.forward[1..];
      assert plan.forward[0] == Replacement(edit) && |plan.forward| == |ids|;
      forall i | 1 <= i < |ids|
        ensures plan.forward[i] == ExactDeletion(SourceOf(board.thoughts, ids[i]), at)
      {
        assert plan.forward[i] == deletions[i - 1];
      }
      MergedReach(board.thoughts, ids, edit, plan.forward, at);
    }
  }

  lemma MergedReach(thoughts: seq<Entry>, ids: seq<ThoughtId>, edit: Rewrite, batch: seq<Mutation>, at: Timestamp)
    requires |ids| == |batch| > 0 && DistinctIds(ids) && AllLive(thoughts, ids)
    requires edit.id == ids[0] && Applies(thoughts, edit) && batch[0] == Replacement(edit)
    requires forall i :: 1 <= i < |ids| ==> batch[i] == ExactDeletion(SourceOf(thoughts, ids[i]), at)
    ensures Mutated(thoughts, Batch(batch)).Some?
    ensures var after := Mutated(thoughts, Batch(batch)).value;
            && Only(thoughts, after, ids)
            && Reads(thoughts, after, ids[0], edit.afterContent, edit.afterAnnotations)
            && forall i :: 1 <= i < |ids| ==> Gone(thoughts, after, ids[i], at)
  {
    forall i | 0 <= i < |ids|
      ensures U.HasId(batch[i]) && batch[i].id == ids[i] && U.On(batch[i], Lookup(thoughts, ids[i])).Gives?
    {
    }
    BatchLeaves(thoughts, batch, ids);
    var after := Mutated(thoughts, Batch(batch)).value;
    forall i | 0 <= i < |ids|
      ensures Lookup(after, ids[i]) == Some(U.On(batch[i], Lookup(thoughts, ids[i])).thought)
    {
    }
  }

  lemma ExportReaches(board: Board, sources: seq<Source>, reference: Creation, at: Timestamp)
    ensures Reaches(board, ReplaceExported(sources, reference, at))
  {
    AdditionsAre(board.counters, [reference]);
    var plan := PlanOf(board, ReplaceExported(sources, reference, at));
    if plan.Perform? {
      var deletions, n := U.ExportDeletions(sources, at), |sources|;
      var add := AddThought(reference.id, NewThought(board.counters, [reference], 0));
      assert plan.forward == deletions + [add];
      U.PrefixOfBatch(board.thoughts, deletions, [add], n);
      U.DeletionsDelete(board.thoughts, sources, at);
      var deleted := Mutated(board.thoughts, Batch(deletions)).value;
      assert Batch(plan.forward).mutations[n] == add;
      assert MutatedBy(board.thoughts, Batch(plan.forward), n) == Some(deleted);
      assert Mutated(deleted, add) == Single(deleted, add);
      assert Mutated(board.thoughts, Batch(plan.forward)) == Mutated(deleted, add);
      ReferenceReaches(board, sources, reference, at, deleted, add);
    }
  }

  lemma ReferenceReaches(board: Board, sources: seq<Source>, reference: Creation, at: Timestamp, deleted: seq<Entry>,
                         add: Mutation)
    requires SourcesMatch(board.thoughts, sources)
    requires add == AddThought(reference.id, NewThought(board.counters, [reference], 0))
    requires forall i :: 0 <= i < |sources| ==>
               Lookup(deleted, sources[i].id)
               == Some(Lookup(board.thoughts, sources[i].id).value.(deletedAt := Some(at)))
    requires forall id :: id !in SourceIds(sources) ==> Lookup(deleted, id) == Lookup(board.thoughts, id)
    ensures Single(deleted, add).Some? <==>
            (LiveAt(board.thoughts, reference.id) ==> reference.id in SourceIds(sources))
    ensures Single(deleted, add).Some? ==>
              Fulfilled(board, Single(deleted, add).value, ReplaceExported(sources, reference, at))
  {
    if reference.id in SourceIds(sources) {
      var i :| 0 <= i < |sources| && SourceIds(sources)[i] == reference.id;
      assert sources[i].id == reference.id;
    }
    forall id
      ensures Single(deleted, add).Some? <==> U.On(add, Lookup(deleted, add.id)).Gives?
      ensures Single(deleted, add).Some? ==>
                Lookup(Single(deleted, add).value, id) ==
                if id == add.id then Some(U.On(add, Lookup(deleted, id)).thought) else Lookup(deleted, id)
    {
      U.SingleActs(deleted, add, id);
    }
    if Single(deleted, add).Some? {
      var after := Single(deleted, add).value;
      forall id | id !in SourceIds(sources) + [reference.id]
        ensures Lookup(after, id) == Lookup(board.thoughts, id)
      {
      }
    }
  }

  lemma {:induction false} MovesChangeNothing(thoughts: seq<Entry>, moves: seq<Mutation>, n: nat)
    requires n <= |moves| && forall i :: 0 <= i < |moves| ==> moves[i].MoveThought?
    ensures MutatedBy(thoughts, Batch(moves), n) ==
            if forall i :: 0 <= i < n ==> LiveAt(thoughts, moves[i].id) then Some(thoughts) else None
  {
    if n > 0 {
      MovesChangeNothing(thoughts, moves, n - 1);
      assert Batch(moves).mutations[n - 1] == moves[n - 1];
    }
  }

  lemma MoveReaches(board: Board, ids: seq<ThoughtId>, moved: seq<ThoughtId>, unmoved: bool)
    ensures Reaches(board, Move(ids, moved, unmoved))
  {
    if !unmoved {
      var moves := seq(|moved|, i requires 0 <= i < |moved| => MoveThought(moved[i]));
      U.SuffixOfBatch(board.thoughts, ChangeSeparator, moves, |moves|);
      MovesChangeNothing(board.thoughts, moves, |moves|);
      assert forall i :: 0 <= i < |moved| ==> moves[i].id == moved[i];
    }
  }

  lemma SeparatorReaches(board: Board)
    ensures Reaches(board, InsertSeparator)
  {
    assert [ChangeSeparator] == [ChangeSeparator] + [];
    U.SuffixOfBatch(board.thoughts, ChangeSeparator, [], 0);
  }

  lemma PlanReaches(board: Board, action: Action)
    requires Plans(action)
    ensures Reaches(board, action)
  {
    match action
    case Create(items, at) => CreationReaches(board, items, at);
    case Duplicate(ids, copies, at) => DuplicationReaches(board, ids, copies, at);
    case Delete(ids, at) => DeletionReaches(board, ids, at);
    case Rename(id, name) => NamingReaches(board, id, name);
    case Present(ids, presentation) => PresentationReaches(board, ids, presentation);
    case Reflow(edits) => ReflowReaches(board, edits);
    case Split(edit, newId, content, annotations, at) => SplitReaches(board, edit, newId, content, annotations, at);
    case Merge(ids, content, annotations, at) => MergeReaches(board, ids, content, annotations, at);
    case ReplaceExported(sources, reference, at) => ExportReaches(board, sources, reference, at);
    case Move(ids, moved, unmoved) => MoveReaches(board, ids, moved, unmoved);
    case _ => SeparatorReaches(board);
  }

  // ---------------------------------------------------------------------------------------------
  // An action asks for one board only

  lemma SameById(before: seq<Entry>, a: seq<Entry>, b: seq<Entry>, ids: seq<ThoughtId>)
    requires Only(before, a, ids) && Only(before, b, ids)
    requires forall i :: 0 <= i < |ids| ==> Lookup(a, ids[i]) == Lookup(b, ids[i])
    ensures U.Same(a, b)
  {
    forall id
      ensures Lookup(a, id) == Lookup(b, id)
    {
      if id in ids {
        var i :| 0 <= i < |ids| && ids[i] == id;
      }
    }
  }

  lemma AddedOnce(board: Board, a: seq<Entry>, b: seq<Entry>, items: seq<Creation>)
    requires Added(board, a, items) && Added(board, b, items)
    ensures U.Same(a, b)
  {
    forall i | 0 <= i < |items|
      ensures Lookup(a, IdsOf(items)[i]) == Lookup(b, IdsOf(items)[i])
    {
      assert Made(board.thoughts, a, items[i].id, NewThought(board.counters, items, i));
    }
    SameById(board.thoughts, a, b, IdsOf(items));
  }

  lemma ReflowedOnce(board: Board, a: seq<Entry>, b: seq<Entry>, edits: seq<Rewrite>)
    requires Fulfilled(board, a, Reflow(edits)) && Fulfilled(board, b, Reflow(edits))
    ensures U.Same(a, b)
  {
    forall i | 0 <= i < |edits|
      ensures Lookup(a, EditIds(edits)[i]) == Lookup(b, EditIds(edits)[i])
    {
      assert Reads(board.thoughts, a, edits[i].id, edits[i].afterContent, edits[i].afterAnnotations);
    }
    SameById(board.thoughts, a, b, EditIds(edits));
  }

  lemma ExportedOnce(board: Board, a: seq<Entry>, b: seq<Entry>, sources: seq<Source>, reference: Creation,
                     at: Timestamp)
    requires Fulfilled(board, a, ReplaceExported(sources, reference, at))
    requires Fulfilled(board, b, ReplaceExported(sources, reference, at))
    ensures U.Same(a, b)
  {
    var ids := SourceIds(sources) + [reference.id];
    forall i | 0 <= i < |ids|
      ensures Lookup(a, ids[i]) == Lookup(b, ids[i])
    {
      if i < |sources| {
        assert ids[i] == sources[i].id;
        if sources[i].id != reference.id {
          assert Gone(board.thoughts, a, sources[i].id, at) && Gone(board.thoughts, b, sources[i].id, at);
        }
      }
    }
    SameById(board.thoughts, a, b, ids);
  }

  lemma FulfilledOnce(board: Board, a: seq<Entry>, b: seq<Entry>, action: Action)
    requires Plans(action) && Fulfilled(board, a, action) && Fulfilled(board, b, action)
    ensures U.Same(a, b)
  {
    match action
    case Create(items, _) => AddedOnce(board, a, b, items);
    case Duplicate(ids, copies, _) => AddedOnce(board, a, b, Copies(board.thoughts, ids, copies));
    case Delete(ids, at) =>
      assert forall i :: 0 <= i < |ids| ==> Gone(board.thoughts, a, ids[i], at);
      SameById(board.thoughts, a, b, ids);
    case Rename(id, _) => SameById(board.thoughts, a, b, [id]);
    case Present(ids, presentation) =>
      assert forall i :: 0 <= i < |ids| ==> Shows(board.thoughts, a, ids[i], presentation);
      SameById(board.thoughts, a, b, ids);
    case Reflow(edits) => ReflowedOnce(board, a, b, edits);
    case Split(edit, newId, _, _, _) => SameById(board.thoughts, a, b, [edit.id, newId]);
    case Merge(ids, content, annotations, at) =>
      assert forall i :: 1 <= i < |ids| ==> Gone(board.thoughts, a, ids[i], at);
      SameById(board.thoughts, a, b, ids);
    case ReplaceExported(sources, reference, at) => ExportedOnce(board, a, b, sources, reference, at);
    case _ => SameById(board.thoughts, a, b, []);
  }

  // ---------------------------------------------------------------------------------------------
  // When an action is accepted

  /** The board that the action asks for passes validation. */
  ghost predicate Passes(board: Board, action: Action) {
    exists want :: Valid(want) && Fulfilled(board, want, action)
  }

  lemma PassesIfApplied(board: Board, action: Action, batch: Mutation)
    requires Valid(board.thoughts) && Plans(action) && Mutated(board.thoughts, batch).Some?
    requires Fulfilled(board, Mutated(board.thoughts, batch).value, action)
    ensures ApplyMutation(board, batch).Some? <==> Passes(board, action)
    ensures ApplyMutation(board, batch).Some? ==>
              ApplyMutation(board, batch).value.thoughts == Mutated(board.thoughts, batch).value
  {
    var candidate := Mutated(board.thoughts, batch).value;
    MutationKeepsDistinct(board.thoughts, batch);
    if Valid(candidate) {
      assert Passes(board, action);
    } else if Passes(board, action) {
      var want :| Valid(want) && Fulfilled(board, want, action);
      FulfilledOnce(board, want, candidate, action);
      U.SameIsValid(want, candidate);
      assert false;
    }
  }

  predicate SequenceLeft(s: State) { s.deferred == map[] && s.highest < MAX_SEQUENCE }

  lemma PerformedIf(s: State, plan: Plan, refused: bool)
    ensures var o := Performed(s, plan, refused);
            && o.ok == (plan.Nothing? ||
                        (SequenceLeft(s) &&
                         (plan.TrackOnly? ||
                          (plan.Perform? && !refused && ApplyMutation(s.board, Batch(plan.forward)).Some?))))
            && (!o.ok || plan.Nothing? ==> o.state == s && o.effects == [])
            && (o.ok && !plan.Nothing? ==> o.effects == [Commit(s.highest + 1)] && o.state.highest == s.highest + 1)
            && (o.ok && plan.TrackOnly? ==> o.state.board == s.board)
            && (o.ok && plan.Perform? ==>
                  o.state.board == ApplyMutation(s.board, Batch(plan.forward)).value)
  {
  }

  /** Apart from locks and failed storage: nothing to change, or a request that goes through. */
  ghost predicate GoesThrough(s: State, action: Action, refused: bool) {
    || Idle(s.board, action)
    || (Possible(s.board, action) && SequenceLeft(s) &&
        (SameName(s.board, action) || (!refused && Passes(s.board, action))))
  }

  ghost predicate AsAsked(s: State, action: Action, o: Outcome) {
    if o.ok && !Idle(s.board, action) then
      && Fulfilled(s.board, o.state.board.thoughts, action)
      && o.effects == [Commit(s.highest + 1)] && o.state.highest == s.highest + 1
    else o.state == s && o.effects == []
  }

  lemma PerformedAsAsked(s: State, action: Action, plan: Plan, refused: bool)
    requires Plans(action) && Valid(s.board.thoughts) && LeadsTo(s.board, action, plan)
    ensures var o := Performed(s, plan, refused);
            o.ok == GoesThrough(s, action, refused) && AsAsked(s, action, o)
  {
    PerformedIf(s, plan, refused);
    if plan.Perform? && Possible(s.board, action) { PassesIfApplied(s.board, action, Batch(plan.forward)); }
  }

  lemma PlannedOutcome(s: State, action: Action, refused: bool)
    requires Plans(action)
    ensures Reduce(s, action, refused) ==
            if Stopped(s, action) then Rejected(s) else Performed(s, PlanOf(s.board, action), refused)
  {
  }

  /**
   * An action on thoughts is accepted exactly if nothing it names is locked, storage works, and either there is nothing
   * to change, or the request makes sense, a sequence is left, it is not refused for positions or text ranges, and the
   * board it asks for passes validation. Then that is the board, under the next sequence; otherwise nothing changes.
   */
  lemma ActionsDoAsAsked(s: State, action: Action, refused: bool)
    requires Plans(action) && Valid(s.board.thoughts)
    ensures var o := Reduce(s, action, refused);
            o.ok == (Free(s, action) && GoesThrough(s, action, refused)) && AsAsked(s, action, o)
  {
    StoppedUnlessFree(s, action);
    PlannedOutcome(s, action, refused);
    PlanReaches(s.board, action);
    PerformedAsAsked(s, action, PlanOf(s.board, action), refused);
  }

  /** The thoughts whose text an action rewrites where they stand. */
  predicate RewritesText(action: Action, id: ThoughtId) {
    match action
    case Reflow(edits) => id in EditIds(edits)
    case Split(edit, _, _, _, _) => id == edit.id
    case Merge(ids, _, _, _) => id in ids
    case _ => false
  }

  /** Exactly where an action rewrites text, the editor forgets the revisions it could redo. */
  lemma RewritesDropRevisions(s: State, action: Action, refused: bool, id: ThoughtId)
    requires Plans(action) && Reduce(s, action, refused).ok && !Idle(s.board, action) && id in s.editors
    ensures var editor, after := s.editors[id], Reduce(s, action, refused).state.editors;
            && id in after && after[id].cursor == editor.cursor
            && after[id].revisions ==
               (if RewritesText(action, id) && editor.cursor <= |editor.revisions|
                then editor.revisions[..editor.cursor] else editor.revisions)
  {
    PlannedOutcome(s, action, refused);
    PlanReaches(s.board, action);
    EditedByPlan(s.board, action, id);
  }

  lemma EditedByPlan(board: Board, action: Action, id: ThoughtId)
    requires Plans(action)
    ensures var plan := PlanOf(board, action);
            if plan.Perform? then id in plan.edited <==> RewritesText(action, id)
            else plan.TrackOnly? ==> !RewritesText(action, id)
  {
  }

  // ---------------------------------------------------------------------------------------------
  // Actions that always pass

  /** No live thought but those of the board, each with its own numbers. */
  lemma NoNewNumbersPass(before: seq<Entry>, after: seq<Entry>)
    requires Valid(before) && DistinctEntries(after)
    requires forall id :: Lookup(after, id).Some? ==>
               && Lookup(before, id).Some?
               && Lookup(before, id).value.annotations == Lookup(after, id).value.annotations
               && (Live(Lookup(after, id).value) ==> Live(Lookup(before, id).value))
    ensures Valid(after)
  {
    forall i | 0 <= i < |after|
      ensures Live(after[i].thought) ==> ComesFrom(before, after[i])
      ensures AllAssigned(after[i].thought.annotations)
    {
      LookupAt(after, i);
      var p := PlaceOf(before, after[i].id);
    }
    LiveAreApart(before, after);
    UniqueIsPairwise(after);
  }

  /** Deleting, naming, presenting and moving bring no new text. */
  predicate BringsNoText(action: Action) {
    action.Delete? || action.Rename? || action.Present? || action.Move? || action.InsertSeparator?
  }

  lemma FulfilledBringsNoText(board: Board, after: seq<Entry>, action: Action, id: ThoughtId)
    requires BringsNoText(action) && Possible(board, action) && Fulfilled(board, after, action)
    requires Lookup(after, id).Some?
    ensures Lookup(board.thoughts, id).Some?
    ensures Lookup(board.thoughts, id).value.annotations == Lookup(after, id).value.annotations
    ensures Live(Lookup(after, id).value) ==> Live(Lookup(board.thoughts, id).value)
  {
    match action
    case Delete(ids, at) =>
      if id in ids {
        var i :| 0 <= i < |ids| && ids[i] == id;
        assert Gone(board.thoughts, after, ids[i], at);
      }
    case Present(ids, presentation) =>
      if id in ids {
        var i :| 0 <= i < |ids| && ids[i] == id;
        assert Shows(board.thoughts, after, ids[i], presentation);
      }
    case Rename(renamed, name) => if id != renamed { assert id !in [renamed]; }
    case Move(_, _, _) => assert id !in [];
    case InsertSeparator => assert id !in [];
    case _ =>
  }

  /** They pass whenever they make sense. */
  lemma ThesePass(board: Board, action: Action)
    requires Valid(board.thoughts) && Plans(action) && BringsNoText(action) && Possible(board, action)
    requires !Idle(board, action) && !SameName(board, action)
    ensures Passes(board, action)
  {
    PlanReaches(board, action);
    var batch := Batch(PlanOf(board, action).forward);
    var after := Mutated(board.thoughts, batch).value;
    MutationKeepsDistinct(board.thoughts, batch);
    forall id | Lookup(after, id).Some?
      ensures Lookup(board.thoughts, id).Some?
      ensures Lookup(board.thoughts, id).value.annotations == Lookup(after, id).value.annotations
      ensures Live(Lookup(after, id).value) ==> Live(Lookup(board.thoughts, id).value)
    {
      FulfilledBringsNoText(board, after, action, id);
    }
    NoNewNumbersPass(board.thoughts, after);
    assert Fulfilled(board, after, action);
  }

  /** The first `n` items are added, and the rest of the board is as it was. */
  ghost predicate AddedUpTo(before: seq<Entry>, after: seq<Entry>, ids: seq<ThoughtId>, thoughts: seq<Thought>, n: nat)
    requires n <= |ids| == |thoughts|
  {
    && (forall i :: 0 <= i < n ==> Lookup(after, ids[i]) == Some(thoughts[i]))
    && Only(before, after, ids[..n])
  }

  lemma OneMoreAdded(before: seq<Entry>, after: seq<Entry>, ids: seq<ThoughtId>, thoughts: seq<Thought>, n: nat)
    requires n < |ids| == |thoughts| && DistinctIds(ids) && AddedUpTo(before, after, ids, thoughts, n)
    ensures AddedUpTo(before, Put(after, ids[n], thoughts[n]), ids, thoughts, n + 1)
  {
    assert ids[..n + 1] == ids[..n] + [ids[n]];
    var now := Put(after, ids[n], thoughts[n]);
    forall id
      ensures Lookup(now, id) == if id == ids[n] then Some(thoughts[n]) else Lookup(after, id)
    {
      LookupAfterPut(after, ids[n], thoughts[n], id);
    }
  }

  /** Valid, and covered by these counters. */
  predicate Orderly(thoughts: seq<Entry>, counters: Counters) {
    Valid(thoughts) && Dominates(counters, OnBoard(thoughts))
  }

  lemma NotYetAdded(before: seq<Entry>, after: seq<Entry>, ids: seq<ThoughtId>, thoughts: seq<Thought>, n: nat)
    requires n < |ids| == |thoughts| && DistinctIds(ids) && AddedUpTo(before, after, ids, thoughts, n)
    ensures Lookup(after, ids[n]) == Lookup(before, ids[n])
  {
    assert ids[n] !in ids[..n];
  }

  /** Numbers that are new to the board, one item after the other, keep it valid and covered. */
  lemma {:induction false} NewItemsPass(board: Board, items: seq<Creation>, ids: seq<ThoughtId>,
                                        thoughts: seq<Thought>, n: nat)
    returns (want: seq<Entry>)
    requires Orderly(board.thoughts, board.counters) && n <= |items| && DistinctIds(ids)
    requires ids == IdsOf(items) && thoughts == NewThoughts(board.counters, items)
    requires forall i :: 0 <= i < |items| ==> !items[i].preserve && Lookup(board.thoughts, ids[i]).None?
    ensures Orderly(want, CountersAfter(board.counters, items, n))
    ensures AddedUpTo(board.thoughts, want, ids, thoughts, n)
  {
    if n == 0 {
      want := board.thoughts;
    } else {
      var before := NewItemsPass(board, items, ids, thoughts, n - 1);
      NotYetAdded(board.thoughts, before, ids, thoughts, n - 1);
      OneMoreAdded(board.thoughts, before, ids, thoughts, n - 1);
      NextItemPasses(board.counters, items, n - 1, before, ids[n - 1], thoughts[n - 1]);
      want := Put(before, ids[n - 1], thoughts[n - 1]);
    }
  }

  lemma NextItemPasses(counters: Counters, items: seq<Creation>, n: nat, before: seq<Entry>, id: ThoughtId,
                       thought: Thought)
    requires n < |items| && !items[n].preserve && Lookup(before, id).None?
    requires id == items[n].id && thought == NewThought(counters, items, n)
    requires Orderly(before, CountersAfter(counters, items, n))
    ensures Orderly(Put(before, id, thought), CountersAfter(counters, items, n + 1))
  {
    NewItemPasses(before, CountersAfter(counters, items, n), items[n], thought);
  }

  lemma NewItemPasses(thoughts: seq<Entry>, counters: Counters, item: Creation, thought: Thought)
    requires Orderly(thoughts, counters) && !item.preserve && Lookup(thoughts, item.id).None?
    requires thought.annotations == AllNumbered(counters, Offered(item)) && Live(thought)
    ensures Orderly(Put(thoughts, item.id, thought), Advanced(counters, Offered(item), |Offered(item)|))
  {
    var board := Board(thoughts, counters, 0);
    RenewedCreationPasses(board, item.id, thought.(annotations := item.annotations));
    assert thought.(annotations := item.annotations).(annotations := thought.annotations) == thought;
    PutKeepsDistinct(thoughts, item.id, thought);
    NumbersStayCovered(board, item, thought);
  }

  lemma NumbersStayCovered(board: Board, item: Creation, thought: Thought)
    requires Covered(board) && !item.preserve && Lookup(board.thoughts, item.id).None?
    requires thought.annotations == AllNumbered(board.counters, Offered(item))
    ensures Dominates(Advanced(board.counters, Offered(item), |Offered(item)|),
                      OnBoard(Put(board.thoughts, item.id, thought)))
  {
    var end := Advanced(board.counters, Offered(item), |Offered(item)|);
    PutAppends(board.thoughts, item.id, thought);
    NewNumbersAreFresh(board.counters, Offered(item));
    RenewedHaveNone(item.annotations);
    forall o | o in OnBoard(Put(board.thoughts, item.id, thought))
      ensures o.ordinal <= Count(end, o.image)
    {
      if o in Occurrences(thought.annotations) {
        var i :| 0 <= i < |thought.annotations| && Assigned(thought.annotations[i])
                 && OccurrenceOf(thought.annotations[i]) == o;
      } else {
        assert o in OnBoard(board.thoughts);
      }
    }
  }

  lemma AllAdded(board: Board, after: seq<Entry>, items: seq<Creation>)
    requires forall i :: 0 <= i < |items| ==> Lookup(board.thoughts, IdsOf(items)[i]).None?
    requires AddedUpTo(board.thoughts, after, IdsOf(items), NewThoughts(board.counters, items), |items|)
    ensures Added(board, after, items)
  {
    assert IdsOf(items)[..|items|] == IdsOf(items);
    forall i | 0 <= i < |items|
      ensures Made(board.thoughts, after, items[i].id, NewThought(board.counters, items, i))
    {
      assert IdsOf(items)[i] == items[i].id;
    }
  }

  /** New thoughts with renewed attachments pass on every valid board that the counters cover, while numbers last. */
  lemma CreationsPass(board: Board, items: seq<Creation>, at: Timestamp)
    requires Valid(board.thoughts) && Covered(board) && DistinctIds(IdsOf(items))
    requires forall i :: 0 <= i < |items| ==> !items[i].preserve && Lookup(board.thoughts, IdsOf(items)[i]).None?
    ensures Passes(board, Create(items, at))
  {
    var want := NewItemsPass(board, items, IdsOf(items), NewThoughts(board.counters, items), |items|);
    AllAdded(board, want, items);
    assert Fulfilled(board, want, Create(items, at));
  }

  /** And so do copies. */
  lemma CopiesPass(board: Board, ids: seq<ThoughtId>, copies: seq<ThoughtId>, at: Timestamp)
    requires Valid(board.thoughts) && Covered(board) && DistinctIds(copies)
    requires |copies| == |ids| && AllLive(board.thoughts, ids)
    requires forall i :: 0 <= i < |copies| ==> Lookup(board.thoughts, copies[i]).None?
    ensures Passes(board, Duplicate(ids, copies, at))
  {
    var items := Copies(board.thoughts, ids, copies);
    assert IdsOf(items) == copies;
    var want := NewItemsPass(board, items, IdsOf(items), NewThoughts(board.counters, items), |items|);
    AllAdded(board, want, items);
    assert Fulfilled(board, want, Duplicate(ids, copies, at));
  }
}
