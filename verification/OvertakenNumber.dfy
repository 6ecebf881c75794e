/** A run after which the durable number shown is larger than the outstanding one. */
module OvertakenNumber {
  import opened Options
  import opened AttachmentNumbering
  import opened SessionBoards
  import opened Reducer
  import opened Durability
  import opened LockedRevival

  const Capture: Thought := Thought("s", [], None, 0, None)

  const Both: seq<Entry> := [Entry(1, Thought("a", [], None, 0, None)), Entry(2, Capture)]

  const Screenshot: Operation := Operation(2, AddThought(2, Capture), SetDeletion(2, Some(0)))

  lemma CapturedText()
    ensures Single(Text(None), AddThought(2, Capture)) == Some(Both)
  {
    var thoughts := Text(None);
    assert thoughts[0].id == 1 && thoughts[1..] == [];
    assert Lookup(thoughts[1..], 2) == None;
    assert Put(thoughts[1..], 2, Capture) == [Entry(2, Capture)];
    assert Put(thoughts, 2, Capture) == [thoughts[0]] + [Entry(2, Capture)] == Both;
  }

  lemma CheckedBoth()
    ensures Checked(Counters(0, 0), Both, 0) == Some(Board(Both, Counters(0, 0), 0))
  {
    assert UniqueAt(Both, 0) && UniqueAt(Both, 1);
    assert ObservedAll(Counters(0, 0), Both, 0) == Counters(0, 0);
    assert ObservedAll(Counters(0, 0), Both, 1) == Counters(0, 0);
  }

  lemma ScreenshotIsAccepted(s: State)
    requires s.board == BoardOf(None, 0) && s.highest == 1 && s.deferred == map[]
    ensures Captured(s, Screenshot, false).Some?
  {
    CapturedText();
    CheckedBoth();
  }

  /** A thought is created; before storage answers, a screenshot arrives that storage has accepted. */
  function Overtaken(): State { After(Initial(Empty), Run[..1] + [Shot(Screenshot, false)]) }

  /** Then 2 is durable while 1 is still outstanding. */
  lemma DurableIsLarger()
    ensures Overtaken().durability == Outstanding(2, 1) && Overtaken().pending == [1]
  {
    var inputs, s := Run[..1] + [Shot(Screenshot, false)], Reached(1);
    assert inputs[..1] == Run[..1];
    Created();
    ScreenshotIsAccepted(s);
    PendingIsSentMinusAcknowledged(Empty, Run[..1]);
    CaptureOvertakes(s, Screenshot, false);
    assert Overtaken() == Step(s, Shot(Screenshot, false)).state;
  }
}
