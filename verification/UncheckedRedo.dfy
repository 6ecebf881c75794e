/**
 * A run in which redoing an edit leaves two live thoughts with the same image number. It starts from a board with one
 * thought and no attachment: an edit gives the thought an image, undo takes it away, a creation that keeps its numbers
 * brings a thought with that number, and redo brings the edit back without validating the board. Each step has its own
 * lemma, about what is known of the state that the step reaches.
 */
module UncheckedRedo {
  import opened Options
  import opened AttachmentNumbering
  import opened SessionBoards
  import opened Reducer
  import opened Durability
  import opened ValidBoards

  const Fresh: Annotation := Annotation(0, 1, Attachment(None, true, "p"))
  const One: Annotation := Annotation(0, 1, Attachment(Some(1), true, "p"))

  function Text(content: string, annotations: seq<Annotation>): Thought { Thought(content, annotations, None, 0, None) }

  const Plain: seq<Entry> := [Entry(1, Text("x", []))]
  const Edited1: seq<Entry> := [Entry(1, Text("y", [One]))]
  const Created2: seq<Entry> := [Entry(1, Text("x", [])), Entry(2, Text("z", [One]))]
  const Redone: seq<Entry> := [Entry(1, Text("y", [One])), Entry(2, Text("z", [One]))]

  const TheEdit: Rewrite := Rewrite(1, "x", [], "y", [Fresh])
  const TheCopy: Creation := Creation(2, "z", [One], true, None, 0)

  /** What is known of the states of the run. */
  predicate At(s: State, thoughts: seq<Entry>, image: nat, highest: nat) {
    && s.board.thoughts == thoughts && s.board.counters == Counters(image, 0) && s.locked == {}
    && s.deferred == map[] && !s.durability.Failed? && s.highest == highest
  }

  predicate HasRevision(s: State, cursor: nat) {
    && 1 in s.editors && |s.editors[1].revisions| == 1 && s.editors[1].cursor == cursor
    && var r := s.editors[1].revisions[0];
       r.beforeContent == "x" && r.beforeAnnotations == [] && r.afterContent == "y" && r.afterAnnotations == [One]
  }

  lemma OneWaits()
    ensures Allotted(Counters(0, 0), [Fresh]) == Some((Counters(1, 0), [One]))
    ensures EditRenewal(TheEdit) == [Fresh]
  {
    assert Waiting([Fresh], true, 0) == 0 && Waiting([Fresh], true, 1) == 1;
    assert Waiting([Fresh], false, 0) == 0 && Waiting([Fresh], false, 1) == 0;
    assert AllNumbered(Counters(0, 0), [Fresh]) == [One];
    assert EditRenewal(TheEdit)[0] == Renewed(Fresh) == Fresh;
  }

  lemma CheckedOne(thoughts: seq<Entry>, counters: Counters, lastDurable: nat)
    requires thoughts == Edited1 || thoughts == Created2
    requires counters == Counters(0, 0) || counters == Counters(1, 0)
    ensures Checked(counters, thoughts, lastDurable) == Some(Board(thoughts, Counters(1, 0), lastDurable))
  {
    OnlyOne();
    assert Observed(counters, [], 0) == counters;
    assert Observed(counters, [One], 0) == counters && Observed(counters, [One], 1) == Counters(1, 0);
    assert Observed(Counters(1, 0), [One], 0) == Counters(1, 0) && Observed(Counters(1, 0), [One], 1) == Counters(1, 0);
    assert ObservedAll(counters, thoughts, 0) == counters;
    assert Taken(thoughts, 0) == {};
    assert UniqueAt(thoughts, 0);
    if thoughts == Created2 {
      assert ObservedAll(counters, thoughts, 1) == counters;
      assert Taken(thoughts, 1) == {} by { assert Occurrences([]) == {}; }
      assert UniqueAt(thoughts, 1);
    }
  }

  lemma OnlyOne()
    ensures Occurrences([One]) == {Occurrence(true, 1)} && Unique([One], {}) && Unique([], {})
  {
    assert OccurrenceOf([One][0]) == Occurrence(true, 1);
  }

  lemma PutPlain(content: string, annotations: seq<Annotation>)
    ensures Lookup(Plain, 1) == Some(Text("x", [])) && Lookup(Edited1, 1) == Some(Text("y", [One]))
    ensures Put(Plain, 1, Text(content, annotations)) == [Entry(1, Text(content, annotations))]
    ensures Put(Edited1, 1, Text(content, annotations)) == [Entry(1, Text(content, annotations))]
    ensures Lookup(Created2, 1) == Some(Text("x", []))
    ensures Put(Created2, 1, Text(content, annotations)) ==
            [Entry(1, Text(content, annotations)), Entry(2, Text("z", [One]))]
  {
    assert Plain[1..] == [] && Edited1[1..] == [] && Created2[1..] == [Entry(2, Text("z", [One]))];
  }

  lemma EditGives(s: State)
    requires At(s, Plain, 0, 0) && s.editors == map[]
    ensures Unnumbered(s, TheEdit).Some?
    ensures var t := Unnumbered(s, TheEdit).value;
            t.board == Board(Edited1, Counters(1, 0), s.board.lastDurable) && HasRevision(t, 1)
            && t.locked == {} && t.deferred == map[] && t.durability == s.durability
  {
    OneWaits();
    PutPlain("y", [One]);
    CheckedOne(Edited1, Counters(0, 0), s.board.lastDurable);
  }

  lemma EditStep(s: State)
    requires At(s, Plain, 0, 0) && s.editors == map[]
    ensures var t := Reduce(s, Action.Edit(TheEdit), false).state; At(t, Edited1, 1, 1) && HasRevision(t, 1)
  {
    EditGives(s);
    PutPlain("y", [One]);
  }

  lemma MoveGives(s: State, undo: bool)
    requires if undo then s.board.thoughts == Edited1 && HasRevision(s, 1)
             else s.board.thoughts == Created2 && HasRevision(s, 0)
    ensures MovedEditor(s, 1, undo).Some?
    ensures var t := MovedEditor(s, 1, undo).value;
            && t.board == s.board.(thoughts := if undo then Plain else Redone) && HasRevision(t, if undo then 0 else 1)
            && t == s.(board := t.board, editors := t.editors)
  {
    PutPlain("x", []);
    PutPlain("y", [One]);
  }

  lemma UndoStep(s: State)
    requires At(s, Edited1, 1, 1) && HasRevision(s, 1)
    ensures var t := Reduce(s, Undo(EditorScope(1)), false).state; At(t, Plain, 1, 2) && HasRevision(t, 0)
  {
    MoveGives(s, true);
  }

  lemma RedoStep(s: State)
    requires At(s, Created2, 1, 3) && HasRevision(s, 0)
    ensures Reduce(s, Redo(EditorScope(1)), false).ok
    ensures Reduce(s, Redo(EditorScope(1)), false).state.board.thoughts == Redone
  {
    MoveGives(s, false);
  }

  lemma CopyPlan(counters: Counters)
    requires counters == Counters(1, 0)
    ensures Additions(counters, [TheCopy]) == Some((counters, [AddThought(2, Text("z", [One]))]))
  {
    assert Waiting([One], true, 0) == 0 && Waiting([One], true, 1) == 0;
    assert Waiting([One], false, 0) == 0 && Waiting([One], false, 1) == 0;
    assert AllNumbered(counters, [One]) == [One];
    assert [TheCopy][..|[TheCopy]| - 1] == [] && [TheCopy][|[TheCopy]| - 1] == TheCopy;
    assert Additions(counters, []) == Some((counters, []));
    assert [] + [AddThought(2, Text("z", [One]))] == [AddThought(2, Text("z", [One]))];
  }

  lemma CopyMutates()
    ensures Mutated(Plain, Batch([AddThought(2, Text("z", [One]))])) == Some(Created2)
  {
    var add := AddThought(2, Text("z", [One]));
    assert MutatedBy(Plain, Batch([add]), 0) == Some(Plain);
    assert Plain[1..] == [] && Lookup(Plain, 2) == None;
    assert Put(Plain, 2, Text("z", [One])) == [Plain[0]] + Put([], 2, Text("z", [One])) == Created2;
    assert Mutated(Plain, add) == Single(Plain, add) == Some(Created2);
  }

  lemma CopyPerforms(s: State, plan: Plan)
    requires At(s, Plain, 1, 2)
    requires plan.Perform? && plan.forward == [AddThought(2, Text("z", [One]))] && plan.edited == []
    ensures var t := Performed(s, plan, false).state; At(t, Created2, 1, 3) && t.editors == s.editors
  {
    CopyMutates();
    CheckedOne(Created2, Counters(1, 0), s.board.lastDurable);
    assert Settle(s.editors, []) == s.editors;
  }

  lemma CopyStep(s: State)
    requires At(s, Plain, 1, 2) && HasRevision(s, 0)
    ensures var t := Reduce(s, Create([TheCopy], 0), false).state; At(t, Created2, 1, 3) && HasRevision(t, 0)
  {
    CopyPlan(Counters(1, 0));
    CopyPerforms(s, CreationPlan(Counters(1, 0), [TheCopy], 0));
    CopyIsPerformed(s);
  }

  lemma CopyIsPerformed(s: State)
    requires !s.durability.Failed?
    ensures Reduce(s, Create([TheCopy], 0), false) ==
            Performed(s, CreationPlan(s.board.counters, [TheCopy], 0), false)
  {
  }

  const Run: seq<Input> := [
    Act(Action.Edit(TheEdit), false), Act(Undo(EditorScope(1)), false), Act(Create([TheCopy], 0), false),
    Act(Redo(EditorScope(1)), false)
  ]

  function Reached(n: nat): State
    requires n <= 4
  {
    After(Initial(Board(Plain, Counters(0, 0), 0)), Run[..n])
  }

  lemma NextReached(n: nat)
    requires n < 4
    ensures Reached(n + 1) == Step(Reached(n), Run[n]).state
  {
    assert Run[..n + 1][..n] == Run[..n];
  }

  lemma AfterEdit()
    ensures At(Reached(1), Edited1, 1, 1) && HasRevision(Reached(1), 1)
  {
    NextReached(0);
    EditStep(Initial(Board(Plain, Counters(0, 0), 0)));
  }

  lemma AfterUndo()
    ensures At(Reached(2), Plain, 1, 2) && HasRevision(Reached(2), 0)
  {
    AfterEdit();
    NextReached(1);
    UndoStep(Reached(1));
  }

  lemma AfterCopy()
    ensures At(Reached(3), Created2, 1, 3) && HasRevision(Reached(3), 0)
  {
    AfterUndo();
    NextReached(2);
    CopyStep(Reached(2));
  }

  /** Edit, undo, keep the number in another thought, redo: the board was valid, and two live thoughts share image 1. */
  lemma RedoSharesNumber()
    ensures Valid(Reached(3).board.thoughts)
    ensures Reached(4).board.thoughts == Redone && !UniqueLive(Reached(4).board.thoughts)
  {
    AfterCopy();
    NextReached(3);
    RedoStep(Reached(3));
    CheckedOne(Created2, Counters(1, 0), 0);
    OnlyOne();
    UniqueIsPairwise(Redone);
    assert Occurrence(true, 1) in NumbersAt(Redone, 0) && Occurrence(true, 1) in NumbersAt(Redone, 1);
    assert !Disjoint(Redone, 0, 1);
  }
}
