/**
 * Every recorded operation carries its own inverse: undoing it restores the thoughts it started from, and redoing it
 * leads to the same thoughts again. When undo is let through is stated exactly, also where an identity was used before.
 * The order of items has its own module.
 */
module Undo {
  import opened Options
  import opened AttachmentNumbering
  import opened SessionBoards
  import opened Reducer
  import opened Durability
  import opened Locks
  import opened ValidBoards

  // ---------------------------------------------------------------------------------------------
  // A mutation acts on one thought

  datatype Result = Fails | Gives(thought: Thought)

  function Toggled(thought: Thought, deletedAt: Option<Timestamp>): Thought {
    if thought.deletedAt.Some? == deletedAt.Some? then thought else thought.(deletedAt := deletedAt)
  }

  /** What a mutation makes of the thought it addresses. */
  function On(mutation: Mutation, found: Option<Thought>): Result
    requires HasId(mutation)
  {
    match mutation
    case AddThought(_, thought) =>
      if found.None? then Gives(thought.(deletedAt := None))
      else if Live(found.value) then Fails else Gives(found.value.(deletedAt := None))
    case SetDeletion(_, deletedAt) => if found.None? then Fails else Gives(Toggled(found.value, deletedAt))
    case SetDeletionExact(_, content, annotations, expected, deletedAt) =>
      if found.None? || found.value.content != content || found.value.annotations != annotations
         || found.value.deletedAt != expected then Fails
      else Gives(Toggled(found.value, deletedAt))
    case MoveThought(_) => if found.None? || !Live(found.value) then Fails else Gives(found.value)
    case ReplaceContent(_, beforeContent, beforeAnnotations, afterContent, afterAnnotations) =>
      if found.None? || !Live(found.value) || found.value.content != beforeContent
         || found.value.annotations != beforeAnnotations then Fails
      else Gives(found.value.(content := afterContent, annotations := afterAnnotations))
    case SetPresentation(_, presentation) =>
      if found.None? then Fails else Gives(found.value.(presentation := presentation))
    case SetName(_, before, after) =>
      if found.None? || !Live(found.value) || found.value.name != before then Fails
      else Gives(found.value.(name := after))
  }

  predicate HasId(mutation: Mutation) { !mutation.Batch? && !mutation.ChangeSeparator? }

  lemma SingleActs(thoughts: seq<Entry>, mutation: Mutation, id: ThoughtId)
    requires HasId(mutation)
    ensures Single(thoughts, mutation).Some? <==> On(mutation, Lookup(thoughts, mutation.id)).Gives?
    ensures Single(thoughts, mutation).Some? ==>
      Lookup(Single(thoughts, mutation).value, id) ==
      if id == mutation.id then Some(On(mutation, Lookup(thoughts, id)).thought) else Lookup(thoughts, id)
  {
    forall thought
      ensures Lookup(Put(thoughts, mutation.id, thought), id) ==
              if id == mutation.id then Some(thought) else Lookup(thoughts, id)
    {
      LookupAfterPut(thoughts, mutation.id, thought, id);
    }
  }

  // ---------------------------------------------------------------------------------------------
  // Batches over distinct thoughts

  predicate Separate(batch: seq<Mutation>) {
    && (forall i :: 0 <= i < |batch| ==> HasId(batch[i]))
    && (forall i, j :: 0 <= i < j < |batch| ==> batch[i].id != batch[j].id)
  }

  predicate AllGive(thoughts: seq<Entry>, batch: seq<Mutation>, n: nat)
    requires Separate(batch) && n <= |batch|
  {
    forall i :: 0 <= i < n ==> On(batch[i], Lookup(thoughts, batch[i].id)).Gives?
  }

  /** Each thought is what its own mutation makes of it; the others are as they were. */
  ghost predicate ActedOn(before: seq<Entry>, after: seq<Entry>, batch: seq<Mutation>, n: nat)
    requires Separate(batch) && n <= |batch| && AllGive(before, batch, n)
  {
    && (forall i :: 0 <= i < n ==>
          Lookup(after, batch[i].id) == Some(On(batch[i], Lookup(before, batch[i].id)).thought))
    && (forall id :: (forall i :: 0 <= i < n ==> batch[i].id != id) ==> Lookup(after, id) == Lookup(before, id))
  }

  lemma {:induction false} BatchActs(thoughts: seq<Entry>, batch: seq<Mutation>, n: nat)
    requires Separate(batch) && n <= |batch|
    ensures MutatedBy(thoughts, Batch(batch), n).Some? <==> AllGive(thoughts, batch, n)
    ensures AllGive(thoughts, batch, n) ==> ActedOn(thoughts, MutatedBy(thoughts, Batch(batch), n).value, batch, n)
  {
    if n > 0 {
      BatchActs(thoughts, batch, n - 1);
      if AllGive(thoughts, batch, n - 1) {
        var before := MutatedBy(thoughts, Batch(batch), n - 1).value;
        var last := batch[n - 1];
        assert Lookup(before, last.id) == Lookup(thoughts, last.id);
        assert MutatedBy(thoughts, Batch(batch), n) == Single(before, last);
        forall id
          ensures Single(before, last).Some? <==> On(last, Lookup(thoughts, last.id)).Gives?
          ensures Single(before, last).Some? ==>
            Lookup(Single(before, last).value, id) ==
            if id == last.id then Some(On(last, Lookup(thoughts, id)).thought) else Lookup(before, id)
        {
          SingleActs(before, last, id);
        }
      }
    }
  }

  // ---------------------------------------------------------------------------------------------
  // Inverses

  /** A thought that was there is there with its text, live or not as before; one that was not is not live. */
  predicate RestoredTo(before: Option<Thought>, after: Thought) {
    if before.None? then !Live(after) else SameText(before.value, after) && (Live(before.value) <==> Live(after))
  }

  ghost predicate Restored(before: seq<Entry>, after: seq<Entry>) {
    forall id :: var a, b := Lookup(before, id), Lookup(after, id);
                 if b.None? then a.None? else RestoredTo(a, b.value)
  }

  /** What was created is left with the text it was created with. */
  ghost predicate NewKeepText(before: seq<Entry>, after: seq<Entry>, back: seq<Entry>) {
    forall id :: Lookup(before, id).None? && Lookup(back, id).Some? ==>
      Lookup(after, id).Some? && SameText(Lookup(after, id).value, Lookup(back, id).value)
  }

  /** Where `forward` works, `inverse` works on its result and restores the thought, and `forward` works again. */
  predicate Undoes(forward: Mutation, inverse: Mutation, found: Option<Thought>)
    requires HasId(forward) && HasId(inverse)
  {
    On(forward, found).Gives? ==>
      var done := On(inverse, Some(On(forward, found).thought));
      && done.Gives? && RestoredTo(found, done.thought) && On(forward, Some(done.thought)) == On(forward, found)
      && (found.None? ==> SameText(On(forward, found).thought, done.thought))
  }

  /** Every mutation of one batch has its inverse in the other. */
  predicate Paired(thoughts: seq<Entry>, forward: seq<Mutation>, inverse: seq<Mutation>) {
    && Separate(forward) && Separate(inverse)
    && (forall i :: 0 <= i < |forward| ==> HasInverse(thoughts, forward[i], inverse))
    && (forall j :: 0 <= j < |inverse| ==> IsInverse(thoughts, forward, inverse[j]))
  }

  predicate HasInverse(thoughts: seq<Entry>, mutation: Mutation, inverse: seq<Mutation>) {
    exists j :: 0 <= j < |inverse| && Undo1(thoughts, mutation, inverse[j])
  }

  predicate IsInverse(thoughts: seq<Entry>, forward: seq<Mutation>, mutation: Mutation) {
    exists i :: 0 <= i < |forward| && Undo1(thoughts, forward[i], mutation)
  }

  predicate Undo1(thoughts: seq<Entry>, forward: Mutation, inverse: Mutation) {
    HasId(forward) && HasId(inverse) && forward.id == inverse.id
    && Undoes(forward, inverse, Lookup(thoughts, forward.id))
  }

  /** A batch with its paired inverse comes back. */
  lemma PairedRestores(thoughts: seq<Entry>, forward: seq<Mutation>, inverse: seq<Mutation>)
    requires Paired(thoughts, forward, inverse) && Mutated(thoughts, Batch(forward)).Some?
    ensures var after := Mutated(thoughts, Batch(forward)).value;
            && Mutated(after, Batch(inverse)).Some?
            && Restored(thoughts, Mutated(after, Batch(inverse)).value)
            && NewKeepText(thoughts, after, Mutated(after, Batch(inverse)).value)
  {
    BatchActs(thoughts, forward, |forward|);
    var after := Mutated(thoughts, Batch(forward)).value;
    forall j | 0 <= j < |inverse|
      ensures var done := On(inverse[j], Lookup(after, inverse[j].id));
              && done.Gives? && RestoredTo(Lookup(thoughts, inverse[j].id), done.thought)
              && (Lookup(thoughts, inverse[j].id).None? ==>
                    Lookup(after, inverse[j].id).Some?
                    && SameText(Lookup(after, inverse[j].id).value, done.thought))
    {
      assert IsInverse(thoughts, forward, inverse[j]);
      var i :| 0 <= i < |forward| && Undo1(thoughts, forward[i], inverse[j]);
    }
    BatchActs(after, inverse, |inverse|);
    var back := Mutated(after, Batch(inverse)).value;
    forall id
      ensures var a, b := Lookup(thoughts, id), Lookup(back, id);
              if b.None? then a.None? else RestoredTo(a, b.value)
      ensures Lookup(thoughts, id).None? && Lookup(back, id).Some? ==>
              Lookup(after, id).Some? && SameText(Lookup(after, id).value, Lookup(back, id).value)
    {
      if j :| 0 <= j < |inverse| && inverse[j].id == id {
        assert Lookup(back, inverse[j].id) == Some(On(inverse[j], Lookup(after, id)).thought);
      } else {
        assert Lookup(back, id) == Lookup(after, id);
        forall i | 0 <= i < |forward|
          ensures forward[i].id != id
        {
          assert HasInverse(thoughts, forward[i], inverse);
        }
      }
    }
  }

  /** The thoughts are the same under every identity. */
  ghost predicate Same(a: seq<Entry>, b: seq<Entry>) { forall id :: Lookup(a, id) == Lookup(b, id) }

  /** And done again it leads to the same thoughts. */
  lemma PairedRepeats(thoughts: seq<Entry>, forward: seq<Mutation>, inverse: seq<Mutation>)
    requires Paired(thoughts, forward, inverse) && Mutated(thoughts, Batch(forward)).Some?
    requires Mutated(Mutated(thoughts, Batch(forward)).value, Batch(inverse)).Some?
    ensures var after := Mutated(thoughts, Batch(forward)).value;
            var back := Mutated(after, Batch(inverse)).value;
            && Mutated(back, Batch(forward)).Some? && Same(after, Mutated(back, Batch(forward)).value)
  {
    BatchActs(thoughts, forward, |forward|);
    var after := Mutated(thoughts, Batch(forward)).value;
    BatchActs(after, inverse, |inverse|);
    var back := Mutated(after, Batch(inverse)).value;
    forall i | 0 <= i < |forward|
      ensures On(forward[i], Lookup(back, forward[i].id)) == On(forward[i], Lookup(thoughts, forward[i].id))
    {
      assert HasInverse(thoughts, forward[i], inverse);
      var j :| 0 <= j < |inverse| && Undo1(thoughts, forward[i], inverse[j]);
      assert Lookup(back, inverse[j].id) == Some(On(inverse[j], Lookup(after, inverse[j].id)).thought);
    }
    BatchActs(back, forward, |forward|);
    var again := Mutated(back, Batch(forward)).value;
    forall id
      ensures Lookup(again, id) == Lookup(after, id)
    {
      if i :| 0 <= i < |forward| && forward[i].id == id {
        assert Lookup(again, forward[i].id) == Some(On(forward[i], Lookup(back, forward[i].id)).thought);
      } else {
        assert Lookup(again, id) == Lookup(back, id) && Lookup(after, id) == Lookup(thoughts, id);
        forall j | 0 <= j < |inverse|
          ensures inverse[j].id != id
        {
          assert IsInverse(thoughts, forward, inverse[j]);
        }
      }
    }
  }

  // ---------------------------------------------------------------------------------------------
  // The plans

  lemma SameIdsSeparate(forward: seq<Mutation>, inverse: seq<Mutation>)
    requires Separate(forward) && |inverse| == |forward|
    requires forall i :: 0 <= i < |forward| ==> HasId(inverse[i]) && inverse[i].id == forward[i].id
    ensures Separate(inverse)
  {
  }

  lemma AlignedArePaired(thoughts: seq<Entry>, forward: seq<Mutation>, inverse: seq<Mutation>)
    requires Separate(forward) && |inverse| == |forward|
    requires forall i :: 0 <= i < |forward| ==> Undo1(thoughts, forward[i], inverse[i])
    ensures Paired(thoughts, forward, inverse)
  {
    forall i | 0 <= i < |forward|
      ensures HasInverse(thoughts, forward[i], inverse) && IsInverse(thoughts, forward, inverse[i])
    {
      assert Undo1(thoughts, forward[i], inverse[i]);
    }
    SameIdsSeparate(forward, inverse);
  }

  predicate Apart(first: Mutation, rest: seq<Mutation>) {
    HasId(first) && Separate(rest) && forall i :: 0 <= i < |rest| ==> rest[i].id != first.id
  }

  lemma ApartIsSeparate(first: Mutation, rest: seq<Mutation>)
    requires Apart(first, rest)
    ensures Separate([first] + rest) && Separate(rest + [first])
  {
  }

  lemma UndoneApart(thoughts: seq<Entry>, first: Mutation, rest: seq<Mutation>, last: Mutation,
                    inverse: seq<Mutation>)
    requires Apart(first, rest) && |inverse| == |rest| && Undo1(thoughts, first, last)
    requires forall i :: 0 <= i < |rest| ==> Undo1(thoughts, rest[i], inverse[i])
    ensures Apart(last, inverse)
  {
    assert forall i :: 0 <= i < |rest| ==> inverse[i].id == rest[i].id;
  }

  /** A first mutation and the rest, undone in the order: the rest, then the first. */
  lemma FirstThenRest(thoughts: seq<Entry>, first: Mutation, rest: seq<Mutation>, last: Mutation,
                      inverse: seq<Mutation>)
    requires Apart(first, rest) && |inverse| == |rest| && Undo1(thoughts, first, last)
    requires forall i :: 0 <= i < |rest| ==> Undo1(thoughts, rest[i], inverse[i])
    ensures Paired(thoughts, [first] + rest, inverse + [last])
  {
    var n, forward, back := |rest|, [first] + rest, inverse + [last];
    ApartIsSeparate(first, rest);
    UndoneApart(thoughts, first, rest, last, inverse);
    ApartIsSeparate(last, inverse);
    forall i | 0 <= i <= n
      ensures HasInverse(thoughts, forward[i], back)
    {
      var j := if i == 0 then n else i - 1;
      assert Undo1(thoughts, forward[i], back[j]);
    }
    forall j | 0 <= j <= n
      ensures IsInverse(thoughts, forward, back[j])
    {
      var i := if j == n then 0 else j + 1;
      assert Undo1(thoughts, forward[i], back[j]);
    }
  }

  /** And the other way round. */
  lemma RestThenFirst(thoughts: seq<Entry>, first: Mutation, rest: seq<Mutation>, last: Mutation,
                      inverse: seq<Mutation>)
    requires Apart(first, rest) && |inverse| == |rest| && Undo1(thoughts, first, last)
    requires forall i :: 0 <= i < |rest| ==> Undo1(thoughts, rest[i], inverse[i])
    ensures Paired(thoughts, rest + [first], [last] + inverse)
  {
    var n, forward, back := |rest|, rest + [first], [last] + inverse;
    ApartIsSeparate(first, rest);
    UndoneApart(thoughts, first, rest, last, inverse);
    ApartIsSeparate(last, inverse);
    forall i | 0 <= i <= n
      ensures HasInverse(thoughts, forward[i], back)
    {
      var j := if i == n then 0 else i + 1;
      assert Undo1(thoughts, forward[i], back[j]);
    }
    forall j | 0 <= j <= n
      ensures IsInverse(thoughts, forward, back[j])
    {
      var i := if j == 0 then n else j - 1;
      assert Undo1(thoughts, forward[i], back[j]);
    }
  }

  lemma {:induction false} DifferingAreDistinct(thoughts: seq<Entry>, ids: seq<ThoughtId>, presentation: nat)
    requires AllLive(thoughts, ids) && DistinctIds(ids)
    ensures DistinctIds(Differing(thoughts, ids, presentation))
  {
    if ids != [] {
      DifferingAreDistinct(thoughts, ids[..|ids| - 1], presentation);
      DifferingAreSelected(thoughts, ids[..|ids| - 1], presentation);
    }
  }

  predicate AllAdd(batch: seq<Mutation>) { forall i :: 0 <= i < |batch| ==> batch[i].AddThought? }

  /** What was added is live, so it cannot be added again. */
  lemma {:induction false} AddedAreDistinct(thoughts: seq<Entry>, batch: seq<Mutation>, n: nat)
    requires AllAdd(batch) && n <= |batch| && MutatedBy(thoughts, Batch(batch), n).Some?
    ensures forall i :: 0 <= i < n ==> LiveAt(MutatedBy(thoughts, Batch(batch), n).value, batch[i].id)
    ensures forall i, j :: 0 <= i < j < n ==> batch[i].id != batch[j].id
  {
    if n > 0 {
      AddedAreDistinct(thoughts, batch, n - 1);
      var before := MutatedBy(thoughts, Batch(batch), n - 1).value;
      assert MutatedBy(thoughts, Batch(batch), n) == Single(before, batch[n - 1]);
      forall i | 0 <= i < n
        ensures LiveAt(MutatedBy(thoughts, Batch(batch), n).value, batch[i].id)
        ensures i < n - 1 ==> batch[i].id != batch[n - 1].id
      {
        AddedIsLive(before, batch[n - 1], batch[i].id);
      }
    }
  }

  lemma AddedIsLive(thoughts: seq<Entry>, add: Mutation, id: ThoughtId)
    requires add.AddThought? && Single(thoughts, add).Some?
    ensures LiveAt(Single(thoughts, add).value, id) <==> (LiveAt(thoughts, id) || id == add.id)
    ensures LiveAt(thoughts, id) ==> id != add.id
  {
    SingleActs(thoughts, add, id);
  }

  lemma CreationPaired(thoughts: seq<Entry>, forward: seq<Mutation>, items: seq<Creation>, at: Timestamp)
    requires AllAdd(forward) && |forward| == |items| && forall i :: 0 <= i < |items| ==> forward[i].id == items[i].id
    requires Mutated(thoughts, Batch(forward)).Some?
    ensures Paired(thoughts, forward, Deletions(IdsOf(items), Some(at)))
  {
    AddedAreDistinct(thoughts, forward, |forward|);
    AlignedArePaired(thoughts, forward, Deletions(IdsOf(items), Some(at)));
  }

  lemma PresentPaired(thoughts: seq<Entry>, ids: seq<ThoughtId>, presentation: nat)
    requires PresentPlan(thoughts, ids, presentation).Perform?
    ensures var plan := PresentPlan(thoughts, ids, presentation); Paired(thoughts, plan.forward, plan.inverse)
  {
    var plan := PresentPlan(thoughts, ids, presentation);
    DifferingAreDistinct(thoughts, ids, presentation);
    DifferingAreSelected(thoughts, ids, presentation);
    AlignedArePaired(thoughts, plan.forward, plan.inverse);
  }

  lemma ReflowPaired(thoughts: seq<Entry>, edits: seq<Rewrite>)
    requires ReflowPlan(thoughts, edits).Perform?
    ensures var plan := ReflowPlan(thoughts, edits); Paired(thoughts, plan.forward, plan.inverse)
  {
    var plan := ReflowPlan(thoughts, edits);
    assert forall i :: 0 <= i < |edits| ==> EditIds(edits)[i] == plan.forward[i].id;
    AlignedArePaired(thoughts, plan.forward, plan.inverse);
  }

  lemma MergePaired(thoughts: seq<Entry>, ids: seq<ThoughtId>, content: string, annotations: seq<Annotation>,
                    at: Timestamp)
    requires MergePlan(thoughts, ids, content, annotations, at).Perform?
    ensures var plan := MergePlan(thoughts, ids, content, annotations, at);
            Paired(thoughts, plan.forward, plan.inverse)
  {
    var first := SourceOf(thoughts, ids[0]);
    var edit := Rewrite(first.id, first.content, first.annotations, content, annotations);
    var others := seq(|ids| - 1, i requires 0 <= i < |ids| - 1 => SourceOf(thoughts, ids[i + 1]));
    var deletions := seq(|others|, i requires 0 <= i < |others| => ExactDeletion(others[i], at));
    var restorations := seq(|others|, i requires 0 <= i < |others| => ExactRestoration(others[i], at));
    assert forall i :: 0 <= i < |others| ==> deletions[i].id == ids[i + 1];
    FirstThenRest(thoughts, Replacement(edit), deletions, Reverted(edit), restorations);
  }

  lemma ExportPaired(board: Board, sources: seq<Source>, reference: Creation, at: Timestamp)
    requires ExportPlan(board, sources, reference, at).Perform? && Lookup(board.thoughts, reference.id).None?
    ensures var plan := ExportPlan(board, sources, reference, at);
            Paired(board.thoughts, plan.forward, plan.inverse)
  {
    var added := Additions(board.counters, [reference]).value.1;
    AdditionContent(board.counters, reference);
    var deletions := seq(|sources|, i requires 0 <= i < |sources| => ExactDeletion(sources[i], at));
    var restorations := seq(|sources|, i requires 0 <= i < |sources| => ExactRestoration(sources[i], at));
    assert forall i :: 0 <= i < |sources| ==> deletions[i].id == SourceIds(sources)[i];
    RestThenFirst(board.thoughts, added[0], deletions,
                  ExactDeletion(Source(reference.id, reference.content, added[0].thought.annotations), at),
                  restorations);
    assert added == [added[0]];
  }

  lemma AdditionContent(counters: Counters, item: Creation)
    requires Additions(counters, [item]).Some?
    ensures Additions(counters, [item]).value.1[0].AddThought?
    ensures Additions(counters, [item]).value.1[0].thought.content == item.content
  {
    assert [item][..0] == [];
  }

  lemma SplitPaired(thoughts: seq<Entry>, edit: Rewrite, newId: ThoughtId, content: string,
                    annotations: seq<Annotation>, at: Timestamp)
    requires SplitPlan(thoughts, edit, newId, content, annotations, at).Perform? && Lookup(thoughts, newId).None?
    ensures var plan := SplitPlan(thoughts, edit, newId, content, annotations, at);
            Paired(thoughts, plan.forward, plan.inverse)
  {
    var plan := SplitPlan(thoughts, edit, newId, content, annotations, at);
    FirstThenRest(thoughts, plan.forward[0], [plan.forward[1]], plan.inverse[1], [plan.inverse[0]]);
    assert plan.forward == [plan.forward[0]] + [plan.forward[1]];
    assert plan.inverse == [plan.inverse[0]] + [plan.inverse[1]];
  }

  // ---------------------------------------------------------------------------------------------
  // Undoing a board operation

  /** A thought made by splitting or exporting is new, as generated identities are. */
  predicate FreshIds(thoughts: seq<Entry>, action: Action) {
    match action
    case Split(_, newId, _, _, _) => Lookup(thoughts, newId).None?
    case ReplaceExported(_, reference, _) => Lookup(thoughts, reference.id).None?
    case _ => true
  }

  /** Plans that change thoughts. Moves and separators change positions only; `Reorder.UndoRestores` is about those. */
  predicate ChangesThoughts(action: Action) { Plans(action) && !action.Move? && !action.InsertSeparator? }

  /** The inverse works on what the plan made, and restores; after it the plan works again, with the same result. */
  ghost predicate ComesBack(thoughts: seq<Entry>, forward: seq<Mutation>, inverse: seq<Mutation>) {
    Mutated(thoughts, Batch(forward)).Some? ==>
      var after := Mutated(thoughts, Batch(forward)).value;
      && Mutated(after, Batch(inverse)).Some?
      && var back := Mutated(after, Batch(inverse)).value;
         && Restored(thoughts, back) && NewKeepText(thoughts, after, back)
         && Mutated(back, Batch(forward)).Some? && Same(after, Mutated(back, Batch(forward)).value)
  }

  lemma PlanIsPaired(board: Board, action: Action)
    requires ChangesThoughts(action) && PlanOf(board, action).Perform?
    requires FreshIds(board.thoughts, action)
    requires Mutated(board.thoughts, Batch(PlanOf(board, action).forward)).Some?
    ensures Paired(board.thoughts, PlanOf(board, action).forward, PlanOf(board, action).inverse)
  {
    var thoughts, plan := board.thoughts, PlanOf(board, action);
    match action
    case Create(items, at) => CreationPaired(thoughts, plan.forward, items, at);
    case Delete(ids, _) => AlignedArePaired(thoughts, plan.forward, plan.inverse);
    case Rename(_, _) => AlignedArePaired(thoughts, plan.forward, plan.inverse);
    case Present(ids, presentation) => PresentPaired(thoughts, ids, presentation);
    case Duplicate(ids, copies, at) =>
      var items := seq(|ids|, i requires 0 <= i < |ids| => CopyOf(thoughts, ids[i], copies[i]));
      CreationPaired(thoughts, plan.forward, items, at);
    case Reflow(edits) => ReflowPaired(thoughts, edits);
    case Split(edit, newId, content, annotations, at) => SplitPaired(thoughts, edit, newId, content, annotations, at);
    case Merge(ids, content, annotations, at) => MergePaired(thoughts, ids, content, annotations, at);
    case ReplaceExported(sources, reference, at) => ExportPaired(board, sources, reference, at);
    case _ =>
  }

  /** Every operation on thoughts carries an inverse that restores them. */
  lemma PlansComeBack(board: Board, action: Action)
    requires ChangesThoughts(action) && PlanOf(board, action).Perform? && FreshIds(board.thoughts, action)
    ensures ComesBack(board.thoughts, PlanOf(board, action).forward, PlanOf(board, action).inverse)
  {
    var plan := PlanOf(board, action);
    if Mutated(board.thoughts, Batch(plan.forward)).Some? {
      PlanIsPaired(board, action);
      PairedRestores(board.thoughts, plan.forward, plan.inverse);
      PairedRepeats(board.thoughts, plan.forward, plan.inverse);
    }
  }

  // ---------------------------------------------------------------------------------------------
  // What comes back is valid

  lemma RestoredIsValid(before: seq<Entry>, after: seq<Entry>, back: seq<Entry>)
    requires Valid(before) && Durable(after) && DistinctEntries(back)
    requires Restored(before, back) && NewKeepText(before, after, back)
    ensures Durable(back) && UniqueLive(back)
  {
    forall i | 0 <= i < |back|
      ensures AllAssigned(back[i].thought.annotations)
      ensures Live(back[i].thought) ==> Lookup(before, back[i].id) == Some(back[i].thought)
    {
      LookupAt(back, i);
      var a := Lookup(before, back[i].id);
      if a.Some? {
        var p := PlaceOf(before, back[i].id);
      } else {
        var q := PlaceOf(after, back[i].id);
        assert after[q].thought.annotations == back[i].thought.annotations;
      }
    }
    LiveAreApart(before, back);
    UniqueIsPairwise(back);
  }

  lemma SameIsValid(after: seq<Entry>, again: seq<Entry>)
    requires Valid(after) && DistinctEntries(again) && Same(after, again)
    ensures Durable(again) && UniqueLive(again)
  {
    forall i | 0 <= i < |again|
      ensures AllAssigned(again[i].thought.annotations)
      ensures Lookup(after, again[i].id) == Some(again[i].thought)
    {
      LookupAt(again, i);
      var p := PlaceOf(after, again[i].id);
    }
    LiveAreApart(after, again);
    UniqueIsPairwise(again);
  }

  // ---------------------------------------------------------------------------------------------
  // Undo and redo of what was recorded

  lemma RecordedState(s: State, plan: Plan, refused: bool)
    requires plan.Perform? && Performed(s, plan, refused).ok && s.cursor <= |s.history| && !s.durability.Failed?
    ensures var t := Performed(s, plan, refused).state;
            && Mutated(s.board.thoughts, Batch(plan.forward)) == Some(t.board.thoughts) && t.cursor == s.cursor + 1
            && NextOperation(t, true) == Some(Operation(s.highest + 1, Batch(plan.forward), Batch(plan.inverse)))
            && t.deferred == map[] && !t.durability.Failed? && t.highest == s.highest + 1
  {
  }

  /** Undo is let through exactly if it is not refused, numbers last, no lock stops it, and the board accepts it. */
  lemma UndoneState(t: State, refused: bool)
    requires NextOperation(t, true).Some? && t.deferred == map[] && !t.durability.Failed?
    ensures var u := Reduce(t, Action.Undo(BoardScope), refused);
            && (u.ok <==> !refused && t.highest < MAX_SEQUENCE && !ReplayLocked(t, true)
                          && ApplyMutation(t.board, NextOperation(t, true).value.inverse).Some?)
            && (u.ok ==>
                  && Mutated(t.board.thoughts, NextOperation(t, true).value.inverse) == Some(u.state.board.thoughts)
                  && u.state.cursor == t.cursor - 1 && NextOperation(u.state, false) == NextOperation(t, true)
                  && u.state.deferred == map[] && !u.state.durability.Failed?)
  {
    MovedState(t, true, refused);
  }

  lemma MovedState(t: State, undo: bool, refused: bool)
    requires NextOperation(t, undo).Some? && t.deferred == map[] && !t.durability.Failed?
    ensures var u, replay := HistoryMoved(t, BoardScope, undo, refused), ReplayOf(NextOperation(t, undo).value, undo);
            && (u.ok <==> !refused && t.highest < MAX_SEQUENCE && ApplyMutation(t.board, replay).Some?)
            && (u.ok ==> Mutated(t.board.thoughts, replay) == Some(u.state.board.thoughts)
                         && u.state.cursor == (if undo then t.cursor - 1 else t.cursor + 1)
                         && u.state.history == t.history && u.state.deferred == map[] && !u.state.durability.Failed?)
  {
  }

  lemma RedoneState(u: State, refused: bool)
    requires NextOperation(u, false).Some? && u.deferred == map[] && !u.durability.Failed?
    ensures var r := Reduce(u, Action.Redo(BoardScope), refused);
            && (r.ok <==> !refused && u.highest < MAX_SEQUENCE && !ReplayLocked(u, false)
                          && ApplyMutation(u.board, NextOperation(u, false).value.forward).Some?)
            && (r.ok ==>
                  && Mutated(u.board.thoughts, NextOperation(u, false).value.forward) == Some(r.state.board.thoughts)
                  && r.state.cursor == u.cursor + 1)
  {
    MovedState(u, false, refused);
  }

  lemma PlanIsPerformed(s: State, action: Action, refused: bool)
    requires Plans(action) && Reduce(s, action, refused).ok
    ensures Reduce(s, action, refused) == Performed(s, PlanOf(s.board, action), refused) && !s.durability.Failed?
  {
  }

  /** The inverse is accepted by the board that the operation left. */
  lemma InverseApplies(s: State, t: State, action: Action)
    requires Valid(s.board.thoughts) && ChangesThoughts(action) && PlanOf(s.board, action).Perform?
    requires FreshIds(s.board.thoughts, action)
    requires Mutated(s.board.thoughts, Batch(PlanOf(s.board, action).forward)) == Some(t.board.thoughts)
    requires Valid(t.board.thoughts)
    ensures ApplyMutation(t.board, Batch(PlanOf(s.board, action).inverse)).Some?
    ensures Restored(s.board.thoughts, Mutated(t.board.thoughts, Batch(PlanOf(s.board, action).inverse)).value)
  {
    PlansComeBack(s.board, action);
    var inverse := Batch(PlanOf(s.board, action).inverse);
    MutationKeepsDistinct(t.board.thoughts, inverse);
    RestoredIsValid(s.board.thoughts, t.board.thoughts, Mutated(t.board.thoughts, inverse).value);
  }

  /**
   * After any operation on the thoughts of a valid board, undo is let through exactly if it is not refused for its
   * place in the order of histories, numbers last, and no thought it addresses is locked. Then every thought is back
   * with its text, live or deleted as before, and new ones are gone.
   */
  lemma UndoRestoresBoard(s: State, action: Action, refused: bool, again: bool)
    requires s.cursor <= |s.history| && Valid(s.board.thoughts) && ChangesThoughts(action)
    requires FreshIds(s.board.thoughts, action)
    requires PlanOf(s.board, action).Perform? && Reduce(s, action, refused).ok
    ensures var t := Reduce(s, action, refused).state;
            var u := Reduce(t, Action.Undo(BoardScope), again);
            && (u.ok <==> !again && t.highest < MAX_SEQUENCE && !ReplayLocked(t, true))
            && (u.ok ==> Restored(s.board.thoughts, u.state.board.thoughts) && u.state.cursor == s.cursor)
  {
    var plan := PlanOf(s.board, action);
    PlanIsPerformed(s, action, refused);
    RecordedState(s, plan, refused);
    PerformedIsValid(s, plan, refused);
    var t := Performed(s, plan, refused).state;
    InverseApplies(s, t, action);
    UndoneState(t, again);
  }

  /** Redo after undo is let through under the same conditions and leads to the thoughts the operation had made. */
  lemma RedoRepeats(s: State, action: Action, refused: bool, again: bool, more: bool)
    requires s.cursor <= |s.history| && Valid(s.board.thoughts) && ChangesThoughts(action)
    requires FreshIds(s.board.thoughts, action)
    requires PlanOf(s.board, action).Perform? && Reduce(s, action, refused).ok
    requires Reduce(Reduce(s, action, refused).state, Action.Undo(BoardScope), again).ok
    ensures var t := Reduce(s, action, refused).state;
            var u := Reduce(t, Action.Undo(BoardScope), again).state;
            var r := Reduce(u, Action.Redo(BoardScope), more);
            && (r.ok <==> !more && u.highest < MAX_SEQUENCE && !ReplayLocked(u, false))
            && (r.ok ==> Same(t.board.thoughts, r.state.board.thoughts) && r.state.cursor == t.cursor)
  {
    var plan := PlanOf(s.board, action);
    PlanIsPerformed(s, action, refused);
    RecordedState(s, plan, refused);
    PerformedIsValid(s, plan, refused);
    var t := Performed(s, plan, refused).state;
    UndoneState(t, again);
    RedoFromUndone(s, t, action, again, more);
  }

  lemma RedoFromUndone(s: State, t: State, action: Action, again: bool, more: bool)
    requires Valid(s.board.thoughts) && ChangesThoughts(action) && PlanOf(s.board, action).Perform?
    requires FreshIds(s.board.thoughts, action) && Valid(t.board.thoughts)
    requires Mutated(s.board.thoughts, Batch(PlanOf(s.board, action).forward)) == Some(t.board.thoughts)
    requires NextOperation(t, true).Some?
    requires NextOperation(t, true).value.forward == Batch(PlanOf(s.board, action).forward)
    requires NextOperation(t, true).value.inverse == Batch(PlanOf(s.board, action).inverse)
    requires t.deferred == map[] && !t.durability.Failed? && Reduce(t, Action.Undo(BoardScope), again).ok
    ensures var u := Reduce(t, Action.Undo(BoardScope), again).state;
            var r := Reduce(u, Action.Redo(BoardScope), more);
            && (r.ok <==> !more && u.highest < MAX_SEQUENCE && !ReplayLocked(u, false))
            && (r.ok ==> Same(t.board.thoughts, r.state.board.thoughts) && r.state.cursor == t.cursor)
  {
    UndoneState(t, again);
    PlansComeBack(s.board, action);
    var u := Reduce(t, Action.Undo(BoardScope), again).state;
    var forward := Batch(PlanOf(s.board, action).forward);
    MutationKeepsDistinct(t.board.thoughts, Batch(PlanOf(s.board, action).inverse));
    MutationKeepsDistinct(u.board.thoughts, forward);
    SameIsValid(t.board.thoughts, Mutated(u.board.thoughts, forward).value);
    RedoneState(u, more);
  }

  /** If a split reuses the identity of a deleted thought with other text, that thought comes back and undo fails. */
  lemma ReusedIdentityBlocksUndo(thoughts: seq<Entry>, edit: Rewrite, newId: ThoughtId, content: string,
                                 annotations: seq<Annotation>, at: Timestamp)
    requires SplitPlan(thoughts, edit, newId, content, annotations, at).Perform?
    requires var plan := SplitPlan(thoughts, edit, newId, content, annotations, at);
             Mutated(thoughts, Batch(plan.forward)).Some?
    requires Lookup(thoughts, newId).Some?
    ensures var plan := SplitPlan(thoughts, edit, newId, content, annotations, at);
            var after := Mutated(thoughts, Batch(plan.forward)).value;
            var found := Lookup(thoughts, newId).value;
            Mutated(after, Batch(plan.inverse)).Some? <==>
            (found.content == content && found.annotations == annotations)
  {
    var plan := SplitPlan(thoughts, edit, newId, content, annotations, at);
    SplitIsSeparate(thoughts, edit, newId, content, annotations, at);
    BatchActs(thoughts, plan.forward, 2);
    var after := Mutated(thoughts, Batch(plan.forward)).value;
    BatchActs(after, plan.inverse, 2);
    assert Lookup(after, plan.forward[1].id) == Some(Lookup(thoughts, newId).value.(deletedAt := None));
    assert Lookup(after, plan.forward[0].id) == Some(On(plan.forward[0], Lookup(thoughts, edit.id)).thought);
    assert On(plan.inverse[1], Lookup(after, plan.inverse[1].id)).Gives?;
    if AllGive(after, plan.inverse, 2) { assert On(plan.inverse[0], Lookup(after, plan.inverse[0].id)).Gives?; }
  }

  lemma SplitIsSeparate(thoughts: seq<Entry>, edit: Rewrite, newId: ThoughtId, content: string,
                        annotations: seq<Annotation>, at: Timestamp)
    requires SplitPlan(thoughts, edit, newId, content, annotations, at).Perform?
    requires Mutated(thoughts, Batch(SplitPlan(thoughts, edit, newId, content, annotations, at).forward)).Some?
    ensures edit.id != newId
  {
    var forward := SplitPlan(thoughts, edit, newId, content, annotations, at).forward;
    var first := MutatedBy(thoughts, Batch(forward), 1);
    assert MutatedBy(thoughts, Batch(forward), 0) == Some(thoughts);
    assert Batch(forward).mutations[0] == forward[0] && Batch(forward).mutations[1] == forward[1];
    assert first == Mutated(thoughts, forward[0]) == Single(thoughts, forward[0]);
    assert MutatedBy(thoughts, Batch(forward), 2) == Mutated(first.value, forward[1]);
    assert Mutated(first.value, forward[1]) == Single(first.value, forward[1]);
    SingleActs(thoughts, forward[0], edit.id);
    SingleActs(first.value, forward[1], newId);
  }

  lemma {:induction false} PrefixOfBatch(thoughts: seq<Entry>, a: seq<Mutation>, b: seq<Mutation>, n: nat)
    requires n <= |a|
    ensures MutatedBy(thoughts, Batch(a + b), n) == MutatedBy(thoughts, Batch(a), n)
  {
    if n > 0 {
      PrefixOfBatch(thoughts, a, b, n - 1);
      assert (a + b)[n - 1] == a[n - 1];
    }
  }

  lemma {:induction false} SuffixOfBatch(thoughts: seq<Entry>, first: Mutation, rest: seq<Mutation>, n: nat)
    requires !first.Batch? && n <= |rest|
    ensures MutatedBy(thoughts, Batch([first] + rest), n + 1) ==
            if Single(thoughts, first).None? then None else MutatedBy(Single(thoughts, first).value, Batch(rest), n)
  {
    if n == 0 {
      assert ([first] + rest)[0] == first && Mutated(thoughts, first) == Single(thoughts, first);
      assert MutatedBy(thoughts, Batch([first] + rest), 0) == Some(thoughts);
    } else {
      SuffixOfBatch(thoughts, first, rest, n - 1);
      assert ([first] + rest)[n] == rest[n - 1];
    }
  }

  function ExportDeletions(sources: seq<Source>, at: Timestamp): seq<Mutation> {
    seq(|sources|, i requires 0 <= i < |sources| => ExactDeletion(sources[i], at))
  }

  function ExportRestorations(sources: seq<Source>, at: Timestamp): seq<Mutation> {
    seq(|sources|, i requires 0 <= i < |sources| => ExactRestoration(sources[i], at))
  }

  lemma DeletionsDelete(thoughts: seq<Entry>, sources: seq<Source>, at: Timestamp)
    requires SourcesMatch(thoughts, sources) && DistinctIds(SourceIds(sources))
    ensures Mutated(thoughts, Batch(ExportDeletions(sources, at))).Some?
    ensures var after := Mutated(thoughts, Batch(ExportDeletions(sources, at))).value;
            && (forall i :: 0 <= i < |sources| ==>
                  Lookup(after, sources[i].id) == Some(Lookup(thoughts, sources[i].id).value.(deletedAt := Some(at))))
            && (forall id :: id !in SourceIds(sources) ==> Lookup(after, id) == Lookup(thoughts, id))
  {
    var batch := ExportDeletions(sources, at);
    assert forall i :: 0 <= i < |sources| ==> batch[i].id == SourceIds(sources)[i];
    BatchActs(thoughts, batch, |batch|);
    forall i | 0 <= i < |sources|
      ensures Lookup(Mutated(thoughts, Batch(batch)).value, sources[i].id)
              == Some(Lookup(thoughts, sources[i].id).value.(deletedAt := Some(at)))
    {
      assert batch[i].id == sources[i].id;
    }
  }

  lemma RestorationsRestore(thoughts: seq<Entry>, sources: seq<Source>, at: Timestamp)
    requires DistinctIds(SourceIds(sources))
    requires forall i :: 0 <= i < |sources| ==>
      && Lookup(thoughts, sources[i].id).Some?
      && var found := Lookup(thoughts, sources[i].id).value;
         found.content == sources[i].content && found.annotations == sources[i].annotations
         && found.deletedAt == Some(at)
    ensures Mutated(thoughts, Batch(ExportRestorations(sources, at))).Some?
  {
    var batch := ExportRestorations(sources, at);
    assert forall i :: 0 <= i < |sources| ==> batch[i].id == SourceIds(sources)[i] == sources[i].id;
    BatchActs(thoughts, batch, |batch|);
  }

  /** The reference's deletion, first in the inverse, meets the text it expects or stops the undo. */
  lemma InverseOfExport(after: seq<Entry>, sources: seq<Source>, reference: Source, at: Timestamp, found: Thought)
    requires Lookup(after, reference.id) == Some(found) && Live(found) && DistinctIds(SourceIds(sources))
    requires forall i :: 0 <= i < |sources| && sources[i].id != reference.id ==>
      && Lookup(after, sources[i].id).Some?
      && var thought := Lookup(after, sources[i].id).value;
         thought.content == sources[i].content && thought.annotations == sources[i].annotations
         && thought.deletedAt == Some(at)
    requires forall i :: 0 <= i < |sources| && sources[i].id == reference.id ==>
      found.content == sources[i].content && found.annotations == sources[i].annotations
    ensures Mutated(after, Batch([ExactDeletion(reference, at)] + ExportRestorations(sources, at))).Some? <==>
            (found.content == reference.content && found.annotations == reference.annotations)
  {
    var first, rest := ExactDeletion(reference, at), ExportRestorations(sources, at);
    SuffixOfBatch(after, first, rest, |rest|);
    if found.content == reference.content && found.annotations == reference.annotations {
      var next := Single(after, first).value;
      forall id
        ensures Lookup(next, id) ==
                if id == reference.id then Some(found.(deletedAt := Some(at))) else Lookup(after, id)
      {
        LookupAfterPut(after, reference.id, found.(deletedAt := Some(at)), id);
      }
      RestorationsRestore(next, sources, at);
    }
  }

  /**
   * If an export's reference reuses an identity, that thought comes back, and undo works exactly if its text is the
   * same.
   */
  lemma ReusedReferenceBlocksUndo(board: Board, sources: seq<Source>, reference: Creation, at: Timestamp)
    requires ExportPlan(board, sources, reference, at).Perform? && Lookup(board.thoughts, reference.id).Some?
    requires Mutated(board.thoughts, Batch(ExportPlan(board, sources, reference, at).forward)).Some?
    ensures var plan, found := ExportPlan(board, sources, reference, at), Lookup(board.thoughts, reference.id).value;
            var added := Additions(board.counters, [reference]).value.1[0].thought;
            Mutated(Mutated(board.thoughts, Batch(plan.forward)).value, Batch(plan.inverse)).Some? <==>
            (found.content == reference.content && found.annotations == added.annotations)
  {
    var plan, found := ExportPlan(board, sources, reference, at), Lookup(board.thoughts, reference.id).value;
    var add := Additions(board.counters, [reference]).value.1[0];
    var deletions, n := ExportDeletions(sources, at), |sources|;
    assert plan.forward == deletions + [add];
    PrefixOfBatch(board.thoughts, deletions, [add], n);
    DeletionsDelete(board.thoughts, sources, at);
    var deleted := Mutated(board.thoughts, Batch(deletions)).value;
    var after := Mutated(board.thoughts, Batch(plan.forward)).value;
    assert Batch(plan.forward).mutations[n] == add && Mutated(deleted, add) == Single(deleted, add) == Some(after);
    forall id
      ensures Lookup(after, id) == if id == reference.id then Some(found.(deletedAt := None)) else Lookup(deleted, id)
    {
      SingleActs(deleted, add, id);
      if reference.id in SourceIds(sources) {
        var i :| 0 <= i < n && SourceIds(sources)[i] == reference.id;
        assert sources[i].id == reference.id;
      }
    }
    var source := Source(reference.id, reference.content, add.thought.annotations);
    assert plan.inverse == [ExactDeletion(source, at)] + ExportRestorations(sources, at);
    InverseOfExport(after, sources, source, at, found.(deletedAt := None));
  }

  // ---------------------------------------------------------------------------------------------
  // Undoing an edit

  lemma {:induction false} PutBack(thoughts: seq<Entry>, id: ThoughtId, thought: Thought)
    requires Lookup(thoughts, id).Some?
    ensures Put(Put(thoughts, id, thought), id, Lookup(thoughts, id).value) == thoughts
  {
    if thoughts[0].id != id {
      PutBack(thoughts[1..], id, thought);
      assert Put(thoughts, id, thought)[1..] == Put(thoughts[1..], id, thought);
    } else {
      assert Put(thoughts, id, thought)[1..] == thoughts[1..];
    }
  }

  /** The editor has one more revision, which leads back. */
  lemma EditedState(s: State, edit: Rewrite)
    requires Unnumbered(s, edit).Some? && EditorOf(s, edit.id).cursor <= |EditorOf(s, edit.id).revisions|
    ensures var t := Unnumbered(s, edit).value;
            && MovedEditor(t, edit.id, true).Some?
            && MovedEditor(t, edit.id, true).value.board.thoughts == s.board.thoughts
  {
    var t := Unnumbered(s, edit).value;
    var found := Lookup(s.board.thoughts, edit.id).value;
    var annotations := Allotted(s.board.counters, EditRenewal(edit)).value.1;
    var thought := found.(content := edit.afterContent, annotations := annotations);
    assert t.board.thoughts == Put(s.board.thoughts, edit.id, thought);
    LookupAfterPut(s.board.thoughts, edit.id, thought, edit.id);
    PutBack(s.board.thoughts, edit.id, thought);
    assert found == thought.(content := edit.beforeContent, annotations := edit.beforeAnnotations);
  }

  lemma MovedIgnoresLedger(t: State, l: State, id: ThoughtId, undo: bool)
    requires t.board.thoughts == l.board.thoughts && t.editors == l.editors
    ensures MovedEditor(t, id, undo).Some? == MovedEditor(l, id, undo).Some?
    ensures MovedEditor(t, id, undo).Some? ==>
      MovedEditor(t, id, undo).value.board.thoughts == MovedEditor(l, id, undo).value.board.thoughts
  {
  }

  lemma AcceptedEdit(s: State, edit: Rewrite, refused: bool)
    requires Reduce(s, Action.Edit(edit), refused).ok && IsChange(edit)
    ensures Unnumbered(s, edit).Some?
    ensures var t := Tracked(Unnumbered(s, edit).value, s.highest + 1);
            && Reduce(s, Action.Edit(edit), refused).state == t
            && edit.id !in t.locked && !t.durability.Failed? && t.deferred == map[]
            && t.board == Unnumbered(s, edit).value.board && t.editors == Unnumbered(s, edit).value.editors
  {
    assert Guarded(Action.Edit(edit))[0] == edit.id;
  }

  /** Right after an edit, undo in the editor succeeds while sequences last, and brings back the exact board. */
  lemma UndoRestoresEdit(s: State, edit: Rewrite, refused: bool)
    requires Inv(s) && EditorOf(s, edit.id).cursor <= |EditorOf(s, edit.id).revisions|
    requires Reduce(s, Action.Edit(edit), refused).ok && IsChange(edit)
    ensures var t := Reduce(s, Action.Edit(edit), refused).state;
            var u := Reduce(t, Action.Undo(EditorScope(edit.id)), false);
            && (u.ok <==> t.highest < MAX_SEQUENCE)
            && (u.ok ==> u.state.board.thoughts == s.board.thoughts)
  {
    AcceptedEdit(s, edit, refused);
    EditedState(s, edit);
    var after := Unnumbered(s, edit).value;
    MovedIgnoresLedger(after, Tracked(after, s.highest + 1), edit.id, true);
    EditorUndo(Tracked(after, s.highest + 1), edit.id);
  }

  lemma EditorUndo(t: State, id: ThoughtId)
    requires id !in t.locked && !t.durability.Failed? && t.deferred == map[] && MovedEditor(t, id, true).Some?
    ensures var u := Reduce(t, Action.Undo(EditorScope(id)), false);
            && (u.ok <==> t.highest < MAX_SEQUENCE)
            && (u.ok ==> u.state.board.thoughts == MovedEditor(t, id, true).value.board.thoughts)
  {
  }

  // ---------------------------------------------------------------------------------------------
  // Cursors stay within their histories

  predicate CursorsFit(s: State) {
    s.cursor <= |s.history| && forall id :: id in s.editors ==> s.editors[id].cursor <= |s.editors[id].revisions|
  }

  lemma PerformedFits(s: State, plan: Plan, refused: bool)
    requires CursorsFit(s)
    ensures CursorsFit(Performed(s, plan, refused).state)
  {
  }

  lemma EditedFits(s: State, edit: Rewrite, refused: bool)
    requires CursorsFit(s)
    ensures CursorsFit(Edited(s, edit, refused).state)
  {
  }

  lemma HistoryFits(s: State, scope: Scope, undo: bool, refused: bool)
    requires CursorsFit(s)
    ensures CursorsFit(HistoryMoved(s, scope, undo, refused).state)
  {
  }

  lemma PersistenceFits(s: State, action: Action, refused: bool)
    requires CursorsFit(s)
    ensures CursorsFit(Persistence(s, action, refused).state)
  {
  }

  lemma ClipboardFits(s: State, request: RequestId, written: bool, refused: bool)
    requires CursorsFit(s)
    ensures CursorsFit(ClipboardFinished(s, request, written, refused).state)
  {
    if request in s.clipboard {
      var rest := s.(clipboard := s.clipboard - {request});
      PerformedFits(rest, PlanOf(s.board, Delete(SourceIds(s.clipboard[request].sources), s.clipboard[request].at)),
                    refused);
    }
  }

  lemma ShotFits(s: State, operation: Operation, refused: bool)
    requires CursorsFit(s) && Captured(s, operation, refused).Some?
    ensures CursorsFit(Captured(s, operation, refused).value)
  {
  }

  lemma ReduceFits(s: State, action: Action, refused: bool)
    requires CursorsFit(s)
    ensures CursorsFit(Reduce(s, action, refused).state)
  {
    if Stopped(s, action) {
    } else if Plans(action) {
      PerformedFits(s, PlanOf(s.board, action), refused);
    } else if Persists(action) {
      PersistenceFits(s, action, refused);
    } else {
      HandledFits(s, action, refused);
    }
  }

  lemma HandledFits(s: State, action: Action, refused: bool)
    requires CursorsFit(s) && !Plans(action) && !Persists(action)
    ensures CursorsFit(Handled(s, action, refused).state)
  {
    if action.Edit? {
      EditedFits(s, action.edit, refused);
    } else if action.Undo? || action.Redo? {
      HistoryFits(s, action.scope, action.Undo?, refused);
    } else if action.ClipboardResult? {
      ClipboardFits(s, action.request, action.written && !s.durability.Failed?, refused);
    } else {
      OthersLeaveItems(s, action, refused);
    }
  }

  /** Along every run the cursors stay within their histories, so the laws above apply after every run. */
  lemma {:induction false} CursorsAlwaysFit(board: Board, inputs: seq<Input>)
    ensures CursorsFit(After(Initial(board), inputs))
  {
    if inputs != [] {
      var before := inputs[..|inputs| - 1];
      CursorsAlwaysFit(board, before);
      match inputs[|inputs| - 1]
      case Act(action, refused) => ReduceFits(After(Initial(board), before), action, refused);
      case Shot(operation, refused) =>
        if Captured(After(Initial(board), before), operation, refused).Some? {
          ShotFits(After(Initial(board), before), operation, refused);
        }
    }
  }
}
