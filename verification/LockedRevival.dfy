/**
 * A run in which a thought is removed while it is locked and then created again, still locked. It starts from an empty
 * board: create, acknowledge, lock, stage the removal, acknowledge it, create under the same identity. The thought that
 * is live at the end has the text it was removed with, not the text of the last creation. Each step has its own lemma,
 * about what is known of the state that the step reaches.
 */
module LockedRevival {
  import opened Options
  import opened AttachmentNumbering
  import opened SessionBoards
  import opened Reducer
  import opened Durability
  import opened Locks

  const Empty: Board := Board([], Counters(0, 0), 0)

  const First: Creation := Creation(1, "a", [], false, None, 0)
  const Second: Creation := Creation(1, "b", [], false, None, 0)

  function Text(deletedAt: Option<Timestamp>): seq<Entry> { [Entry(1, Thought("a", [], None, 0, deletedAt))] }

  function BoardOf(deletedAt: Option<Timestamp>, lastDurable: nat): Board {
    Board(Text(deletedAt), Counters(0, 0), lastDurable)
  }

  lemma Additions1(item: Creation)
    requires item.annotations == [] && item.name == None && item.presentation == 0
    ensures Additions(Counters(0, 0), [item]) ==
            Some((Counters(0, 0), [AddThought(item.id, Thought(item.content, [], None, 0, None))]))
  {
    assert [item][..0] == [];
    assert AllRenewed([]) == [];
    assert Additions(Counters(0, 0), [item][..0]) == Some((Counters(0, 0), []));
    assert AllNumbered(Counters(0, 0), []) == [];
    assert Allotted(Counters(0, 0), AllRenewed(item.annotations)) == Some((Counters(0, 0), []));
    var thought := Thought(item.content, [], None, 0, None);
    assert [] + [AddThought(item.id, thought)] == [AddThought(item.id, thought)];
    assert [item][|[item]| - 1] == item && [item][..|[item]| - 1] == [];
  }

  lemma BatchOfOne(thoughts: seq<Entry>, mutation: Mutation)
    requires !mutation.Batch?
    ensures Mutated(thoughts, Batch([mutation])) == Single(thoughts, mutation)
  {
    assert MutatedBy(thoughts, Batch([mutation]), 0) == Some(thoughts);
    assert Mutated(thoughts, mutation) == Single(thoughts, mutation);
  }

  lemma CheckedText(deletedAt: Option<Timestamp>, lastDurable: nat)
    ensures Checked(Counters(0, 0), Text(deletedAt), lastDurable) == Some(BoardOf(deletedAt, lastDurable))
  {
    var thoughts := Text(deletedAt);
    assert UniqueAt(thoughts, 0);
    assert ObservedAll(Counters(0, 0), thoughts, 0) == Counters(0, 0);
  }

  lemma AddingGives(s: State, thought: Thought, plan: Plan)
    requires plan.Perform? && plan.forward == [AddThought(1, thought)]
    requires Checked(s.board.counters, Text(None), s.board.lastDurable) == Some(BoardOf(None, s.board.lastDurable))
    requires Single(s.board.thoughts, AddThought(1, thought)) == Some(Text(None))
    requires !s.durability.Failed? && s.deferred == map[] && s.highest < MAX_SEQUENCE
    ensures var o := Performed(s, plan, false);
            && o.ok && o.state.board == BoardOf(None, s.board.lastDurable)
            && o.state.locked == s.locked && o.state.deferred == map[] && o.state.highest == s.highest + 1
            && o.state.pending == s.pending + [s.highest + 1] && !o.state.durability.Failed?
  {
    BatchOfOne(s.board.thoughts, AddThought(1, thought));
  }

  /** Created: the thought is on the board, or back on it, with its own text. */
  lemma CreateGives(s: State, item: Creation, deletedAt: Option<Timestamp>, lastDurable: nat)
    requires item.id == 1 && item.annotations == [] && item.name == None && item.presentation == 0 && !item.preserve
    requires || (s.board == Empty && item.content == "a")
             || (s.board == BoardOf(deletedAt, lastDurable) && deletedAt.Some?)
    requires !s.durability.Failed? && s.deferred == map[] && s.highest < MAX_SEQUENCE
    ensures var o := Reduce(s, Create([item], 0), false);
            && o.ok && o.state.board == BoardOf(None, s.board.lastDurable)
            && o.state.locked == s.locked && o.state.deferred == map[] && o.state.highest == s.highest + 1
            && o.state.pending == s.pending + [s.highest + 1] && !o.state.durability.Failed?
  {
    var thought := Thought(item.content, [], None, 0, None);
    PlanOfOne(item);
    CheckedText(None, s.board.lastDurable);
    AddedText(s.board.thoughts, thought, deletedAt);
    AddingGives(s, thought, CreationPlan(Counters(0, 0), [item], 0));
    CreateIsPerformed(s, item);
  }

  lemma PlanOfOne(item: Creation)
    requires item.annotations == [] && item.name == None && item.presentation == 0
    ensures var plan := CreationPlan(Counters(0, 0), [item], 0);
            plan.Perform? && plan.forward == [AddThought(item.id, Thought(item.content, [], None, 0, None))]
  {
    Additions1(item);
  }

  lemma CreateIsPerformed(s: State, item: Creation)
    requires !s.durability.Failed?
    ensures Reduce(s, Create([item], 0), false) == Performed(s, CreationPlan(s.board.counters, [item], 0), false)
  {
  }

  lemma AddedText(thoughts: seq<Entry>, thought: Thought, deletedAt: Option<Timestamp>)
    requires thought == Thought(thought.content, [], None, 0, None)
    requires (thoughts == [] && thought.content == "a") || (thoughts == Text(deletedAt) && deletedAt.Some?)
    ensures Single(thoughts, AddThought(1, thought)) == Some(Text(None))
  {
    var former := Thought("a", [], None, 0, deletedAt);
    if thoughts == [] {
      assert Lookup(thoughts, 1) == None;
    } else {
      assert Lookup(thoughts, 1) == Some(former);
      var again := former.(deletedAt := None);
      assert thoughts[0].id == 1 && thoughts[1..] == [];
      assert Put(thoughts, 1, again) == [Entry(1, again)] + thoughts[1..] == [Entry(1, again)] == Text(None);
      assert Single(thoughts, AddThought(1, thought)) == Some(Put(thoughts, 1, again));
    }
  }

  lemma AcknowledgeGives(s: State, sequence: nat)
    requires s.pending == [sequence] && sequence !in s.deferred
    requires !s.durability.Failed? && s.board.lastDurable < sequence
    ensures var o := Reduce(s, PersistenceCommitted(sequence), false);
            o.ok && o.state == s.(pending := [], durability := Settled(sequence),
                                  board := s.board.(lastDurable := sequence))
  {
  }

  lemma LockGives(s: State)
    requires LiveAt(s.board.thoughts, 1) && s.locked == {}
    ensures var o := Reduce(s, BeginSubmission([1]), false); o.ok && o.state == s.(locked := {1})
  {
    assert (set id | id in [1]) == {1};
  }

  lemma StageGives(s: State)
    requires s.board.thoughts == Text(None) && s.locked == {1} && !s.durability.Failed? && s.deferred == map[]
    requires s.pending == [] && s.highest < MAX_SEQUENCE
    ensures var o := Reduce(s, StageRemoval([1], 0), false);
            && o.ok && o.state.board == s.board && o.state.locked == s.locked && o.state.pending == [s.highest + 1]
            && o.state.highest == s.highest + 1 && !o.state.durability.Failed?
            && s.highest + 1 in o.state.deferred && o.state.deferred.Keys == {s.highest + 1}
            && o.state.deferred[s.highest + 1].forward == Batch([SetDeletion(1, Some(0))])
  {
    assert Selectable(s.board.thoughts, [1]);
    assert Deletions([1], Some(0)) == [SetDeletion(1, Some(0))];
  }

  lemma ReceiptGives(s: State, sequence: nat)
    requires s.pending == [sequence] && s.deferred.Keys == {sequence} && !s.durability.Failed?
    requires s.deferred[sequence].forward == Batch([SetDeletion(1, Some(0))])
    requires s.board == BoardOf(None, s.board.lastDurable) && s.board.lastDurable < sequence
    ensures var o := Reduce(s, PersistenceCommitted(sequence), false);
            && o.ok && o.state.board == BoardOf(Some(0), sequence) && o.state.locked == s.locked
            && o.state.pending == [] && o.state.deferred == map[] && o.state.highest == s.highest
            && !o.state.durability.Failed?
  {
    ReceiptIsAcknowledged(s, sequence);
  }

  lemma ReceiptIsAcknowledged(s: State, sequence: nat)
    requires s.pending == [sequence] && s.deferred.Keys == {sequence} && !s.durability.Failed?
    requires s.deferred[sequence].forward == Batch([SetDeletion(1, Some(0))])
    requires s.board == BoardOf(None, s.board.lastDurable) && s.board.lastDurable < sequence
    ensures var o := Acknowledged(s, sequence, false);
            && o.ok && o.state.board == BoardOf(Some(0), sequence) && o.state.locked == s.locked
            && o.state.pending == [] && o.state.deferred == map[] && o.state.highest == s.highest
            && !o.state.durability.Failed?
  {
    BatchOfOne(s.board.thoughts, SetDeletion(1, Some(0)));
    DeletedText();
    CheckedText(Some(0), s.board.lastDurable);
    assert s.deferred - {sequence} == map[];
  }

  lemma DeletedText()
    ensures Single(Text(None), SetDeletion(1, Some(0))) == Some(Text(Some(0)))
  {
    var thoughts, gone := Text(None), Thought("a", [], None, 0, Some(0));
    assert thoughts[0].id == 1 && thoughts[1..] == [];
    assert Put(thoughts, 1, gone) == [Entry(1, gone)] + thoughts[1..] == [Entry(1, gone)] == Text(Some(0));
  }

  const Run: seq<Input> := [
    Act(Create([First], 0), false), Act(PersistenceCommitted(1), false), Act(BeginSubmission([1]), false),
    Act(StageRemoval([1], 0), false), Act(PersistenceCommitted(2), false), Act(Create([Second], 0), false)
  ]

  lemma OneStep(s: State, inputs: seq<Input>, n: nat)
    requires n < |inputs|
    ensures After(s, inputs[..n + 1]) == Step(After(s, inputs[..n]), inputs[n]).state
  {
    assert inputs[..n + 1][..n] == inputs[..n];
  }

  /** What is known of a state of the run. */
  predicate At(s: State, board: Board, locked: set<ThoughtId>, pending: seq<nat>, highest: nat) {
    s.board == board && s.locked == locked && s.pending == pending && s.highest == highest && !s.durability.Failed?
  }

  function Reached(n: nat): State
    requires n <= 6
  {
    After(Initial(Empty), Run[..n])
  }

  lemma Created()
    ensures At(Reached(1), BoardOf(None, 0), {}, [1], 1) && Reached(1).deferred == map[]
  {
    OneStep(Initial(Empty), Run, 0);
    assert Run[..0] == [];
    CreateGives(Initial(Empty), First, None, 0);
  }

  lemma CreationAcknowledged()
    ensures At(Reached(2), BoardOf(None, 1), {}, [], 1) && Reached(2).deferred == map[]
  {
    Created();
    OneStep(Initial(Empty), Run, 1);
    AcknowledgeGives(Reached(1), 1);
  }

  lemma Locked()
    ensures At(Reached(3), BoardOf(None, 1), {1}, [], 1) && Reached(3).deferred == map[]
  {
    CreationAcknowledged();
    OneStep(Initial(Empty), Run, 2);
    LockGives(Reached(2));
  }

  lemma StagedThen()
    ensures At(Reached(4), BoardOf(None, 1), {1}, [2], 2) && Reached(4).deferred.Keys == {2}
    ensures Reached(4).deferred[2].forward == Batch([SetDeletion(1, Some(0))])
  {
    Locked();
    OneStep(Initial(Empty), Run, 3);
    StageGives(Reached(3));
  }

  lemma RemovedThen()
    ensures At(Reached(5), BoardOf(Some(0), 2), {1}, [], 2) && Reached(5).deferred == map[]
  {
    StagedThen();
    OneStep(Initial(Empty), Run, 4);
    ReceiptGives(Reached(4), 2);
  }

  /** Live after the run, though its removal was carried out: creation revived it, with its text. */
  lemma LockedThoughtRevived()
    ensures 1 in Reached(5).locked
    ensures Lookup(Reached(5).board.thoughts, 1).Some? && !LiveAt(Reached(5).board.thoughts, 1)
    ensures 1 in Reached(6).locked
    ensures Lookup(Reached(6).board.thoughts, 1) == Some(Thought("a", [], None, 0, None))
  {
    RemovedThen();
    OneStep(Initial(Empty), Run, 5);
    CreateGives(Reached(5), Second, Some(0), 2);
  }
}
