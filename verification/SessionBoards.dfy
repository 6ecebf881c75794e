/**
 * The session board: thoughts, live or recoverably deleted, and the attachment counters. Mutations are
 * applied to a copy that replaces the board only when it passes validation. Positions are not modelled.
 */
module SessionBoards {
  import opened Options
  import opened AttachmentNumbering

  type ThoughtId = nat
  type Timestamp = int

  datatype Thought = Thought(content: string, annotations: seq<Annotation>, name: Option<string>, presentation: nat,
                             deletedAt: Option<Timestamp>)

  datatype Entry = Entry(id: ThoughtId, thought: Thought)

  predicate Live(thought: Thought) { thought.deletedAt.None? }

  datatype Mutation =
    | Batch(mutations: seq<Mutation>)
    | AddThought(id: ThoughtId, thought: Thought)
    | SetDeletion(id: ThoughtId, deletedAt: Option<Timestamp>)
    | SetDeletionExact(id: ThoughtId, content: string, annotations: seq<Annotation>,
                       expectedDeletedAt: Option<Timestamp>, deletedAt: Option<Timestamp>)
    | MoveThought(id: ThoughtId)
    | ReplaceContent(id: ThoughtId, beforeContent: string, beforeAnnotations: seq<Annotation>, afterContent: string,
                     afterAnnotations: seq<Annotation>)
    | SetPresentation(id: ThoughtId, presentation: nat)
    | SetName(id: ThoughtId, before: Option<string>, after: Option<string>)
    | ChangeSeparator

  // ---------------------------------------------------------------------------------------------
  // Thoughts by identity

  function Lookup(thoughts: seq<Entry>, id: ThoughtId): Option<Thought> {
    if thoughts == [] then None
    else if thoughts[0].id == id then Some(thoughts[0].thought)
    else Lookup(thoughts[1..], id)
  }

  /** Replaces a thought in its place, or adds it at the end. */
  function Put(thoughts: seq<Entry>, id: ThoughtId, thought: Thought): seq<Entry> {
    if thoughts == [] then [Entry(id, thought)]
    else if thoughts[0].id == id then [Entry(id, thought)] + thoughts[1..]
    else [thoughts[0]] + Put(thoughts[1..], id, thought)
  }

  lemma {:induction false} LookupAfterPut(thoughts: seq<Entry>, id: ThoughtId, thought: Thought, other: ThoughtId)
    ensures Lookup(Put(thoughts, id, thought), other) == if other == id then Some(thought) else Lookup(thoughts, other)
  {
    if thoughts != [] && thoughts[0].id != id {
      LookupAfterPut(thoughts[1..], id, thought, other);
      assert ([thoughts[0]] + Put(thoughts[1..], id, thought))[1..] == Put(thoughts[1..], id, thought);
    } else if thoughts != [] {
      assert ([Entry(id, thought)] + thoughts[1..])[1..] == thoughts[1..];
    }
  }

  // ---------------------------------------------------------------------------------------------
  // One mutation

  predicate LiveAt(thoughts: seq<Entry>, id: ThoughtId) {
    Lookup(thoughts, id).Some? && Live(Lookup(thoughts, id).value)
  }

  /** Deleting and restoring; repeating either changes nothing. */
  function Deleted(thoughts: seq<Entry>, id: ThoughtId, deletedAt: Option<Timestamp>): Option<seq<Entry>> {
    var found := Lookup(thoughts, id);
    if found.None? then None
    else if found.value.deletedAt.Some? == deletedAt.Some? then Some(thoughts)
    else Some(Put(thoughts, id, found.value.(deletedAt := deletedAt)))
  }

  function Single(thoughts: seq<Entry>, mutation: Mutation): Option<seq<Entry>>
    requires !mutation.Batch?
  {
    match mutation
    case AddThought(id, thought) =>
      var found := Lookup(thoughts, id);
      if found.None? then Some(Put(thoughts, id, thought.(deletedAt := None)))
      else if Live(found.value) then None
      else Some(Put(thoughts, id, found.value.(deletedAt := None)))
    case SetDeletion(id, deletedAt) => Deleted(thoughts, id, deletedAt)
    case SetDeletionExact(id, content, annotations, expected, deletedAt) =>
      var found := Lookup(thoughts, id);
      if found.None? || found.value.content != content || found.value.annotations != annotations
         || found.value.deletedAt != expected then None
      else Deleted(thoughts, id, deletedAt)
    case MoveThought(id) => if LiveAt(thoughts, id) then Some(thoughts) else None
    case ReplaceContent(id, beforeContent, beforeAnnotations, afterContent, afterAnnotations) =>
      var found := Lookup(thoughts, id);
      if !LiveAt(thoughts, id) || found.value.content != beforeContent || found.value.annotations != beforeAnnotations
      then None
      else Some(Put(thoughts, id, found.value.(content := afterContent, annotations := afterAnnotations)))
    case SetPresentation(id, presentation) =>
      var found := Lookup(thoughts, id);
      if found.None? then None else Some(Put(thoughts, id, found.value.(presentation := presentation)))
    case SetName(id, before, after) =>
      var found := Lookup(thoughts, id);
      if !LiveAt(thoughts, id) || found.value.name != before then None
      else Some(Put(thoughts, id, found.value.(name := after)))
    case ChangeSeparator => Some(thoughts)
  }

  function Steps(mutation: Mutation): nat { if mutation.Batch? then |mutation.mutations| + 1 else 0 }

  function Mutated(thoughts: seq<Entry>, mutation: Mutation): Option<seq<Entry>>
    decreases mutation, Steps(mutation)
  {
    if mutation.Batch? then MutatedBy(thoughts, mutation, |mutation.mutations|) else Single(thoughts, mutation)
  }

  /** The first `n` mutations of a batch, all or none. */
  function MutatedBy(thoughts: seq<Entry>, batch: Mutation, n: nat): Option<seq<Entry>>
    requires batch.Batch? && n <= |batch.mutations|
    decreases batch, n
  {
    if n == 0 then Some(thoughts)
    else
      var before := MutatedBy(thoughts, batch, n - 1);
      if before.None? then None else Mutated(before.value, batch.mutations[n - 1])
  }

  // ---------------------------------------------------------------------------------------------
  // What a mutation may touch

  predicate Addresses(mutation: Mutation, id: ThoughtId) {
    match mutation
    case Batch(mutations) => exists i :: 0 <= i < |mutations| && Addresses(mutations[i], id)
    case ChangeSeparator => false
    case _ => mutation.id == id
  }

  lemma SingleLeavesOthers(thoughts: seq<Entry>, mutation: Mutation, id: ThoughtId)
    requires !mutation.Batch? && Single(thoughts, mutation).Some? && !Addresses(mutation, id)
    ensures Lookup(Single(thoughts, mutation).value, id) == Lookup(thoughts, id)
  {
    if !mutation.ChangeSeparator? {
      forall thought
        ensures Lookup(Put(thoughts, mutation.id, thought), id) == Lookup(thoughts, id)
      {
        LookupAfterPut(thoughts, mutation.id, thought, id);
      }
    }
  }

  /** A mutation leaves every thought alone that it does not address. */
  lemma {:induction false} OthersAreUntouched(thoughts: seq<Entry>, mutation: Mutation, id: ThoughtId)
    requires Mutated(thoughts, mutation).Some? && !Addresses(mutation, id)
    ensures Lookup(Mutated(thoughts, mutation).value, id) == Lookup(thoughts, id)
    decreases mutation, Steps(mutation)
  {
    if mutation.Batch? {
      BatchLeavesOthers(thoughts, mutation, |mutation.mutations|, id);
    } else {
      SingleLeavesOthers(thoughts, mutation, id);
    }
  }

  lemma {:induction false} BatchLeavesOthers(thoughts: seq<Entry>, batch: Mutation, n: nat, id: ThoughtId)
    requires batch.Batch? && n <= |batch.mutations| && MutatedBy(thoughts, batch, n).Some? && !Addresses(batch, id)
    ensures Lookup(MutatedBy(thoughts, batch, n).value, id) == Lookup(thoughts, id)
    decreases batch, n
  {
    if n > 0 {
      BatchLeavesOthers(thoughts, batch, n - 1, id);
      OthersAreUntouched(MutatedBy(thoughts, batch, n - 1).value, batch.mutations[n - 1], id);
    }
  }

  // ---------------------------------------------------------------------------------------------
  // The board as a whole

  datatype Board = Board(thoughts: seq<Entry>, counters: Counters, lastDurable: nat)

  /** Numbers on the board, deleted thoughts included. */
  function OnBoard(thoughts: seq<Entry>): set<Occurrence> {
    set i: nat, o | i < |thoughts| && o in Occurrences(thoughts[i].thought.annotations) :: o
  }

  /** Numbers of the live thoughts among the first `n`. */
  function Taken(thoughts: seq<Entry>, n: nat): set<Occurrence>
    requires n <= |thoughts|
  {
    if n == 0 then {}
    else
      Taken(thoughts, n - 1) +
      if Live(thoughts[n - 1].thought) then Occurrences(thoughts[n - 1].thought.annotations) else {}
  }

  predicate UniqueAt(thoughts: seq<Entry>, i: nat)
    requires i < |thoughts|
  {
    Live(thoughts[i].thought) ==> Unique(thoughts[i].thought.annotations, Taken(thoughts, i))
  }

  /** Live attachments are numbered, and no number of a sequence is used twice. */
  predicate UniqueLive(thoughts: seq<Entry>) { forall i :: 0 <= i < |thoughts| ==> UniqueAt(thoughts, i) }

  predicate Durable(thoughts: seq<Entry>) {
    forall i :: 0 <= i < |thoughts| ==> AllAssigned(thoughts[i].thought.annotations)
  }

  function ObservedAll(counters: Counters, thoughts: seq<Entry>, n: nat): Counters
    requires n <= |thoughts|
  {
    if n == 0 then counters
    else
      var annotations := thoughts[n - 1].thought.annotations;
      Observed(ObservedAll(counters, thoughts, n - 1), annotations, |annotations|)
  }

  /** Observe and validate a candidate. */
  function Checked(counters: Counters, thoughts: seq<Entry>, lastDurable: nat): Option<Board> {
    if Durable(thoughts) && UniqueLive(thoughts)
    then Some(Board(thoughts, ObservedAll(counters, thoughts, |thoughts|), lastDurable))
    else None
  }

  function ApplyMutation(board: Board, mutation: Mutation): Option<Board> {
    var candidate := Mutated(board.thoughts, mutation);
    if candidate.None? then None else Checked(board.counters, candidate.value, board.lastDurable)
  }

  /** The counters cover every number on the board. */
  predicate Covered(board: Board) { Dominates(board.counters, OnBoard(board.thoughts)) }

  /** A counter that has risen stands at a number that is there. */
  predicate NoHigher(before: Counters, after: Counters, there: set<Occurrence>) {
    && (after.image == before.image || Occurrence(true, after.image) in there)
    && (after.file == before.file || Occurrence(false, after.file) in there)
  }

  lemma {:induction false} ObservedAllCovers(counters: Counters, thoughts: seq<Entry>, n: nat)
    requires n <= |thoughts|
    ensures AtMost(counters, ObservedAll(counters, thoughts, n))
    ensures Dominates(ObservedAll(counters, thoughts, n), OnBoard(thoughts[..n]))
    ensures NoHigher(counters, ObservedAll(counters, thoughts, n), OnBoard(thoughts[..n]))
  {
    if n > 0 {
      var annotations := thoughts[n - 1].thought.annotations;
      var before := ObservedAll(counters, thoughts, n - 1);
      ObservedAllCovers(counters, thoughts, n - 1);
      ObservedDominates(before, annotations, |annotations|);
      assert annotations[..|annotations|] == annotations;
      forall o | o in OnBoard(thoughts[..n])
        ensures o in OnBoard(thoughts[..n - 1]) || o in Occurrences(annotations)
      {
        var i: nat :| i < n && o in Occurrences(thoughts[..n][i].thought.annotations);
        if i < n - 1 { assert thoughts[..n - 1][i] == thoughts[..n][i]; }
      }
      OnMore(thoughts, n);
    }
  }

  lemma OnMore(thoughts: seq<Entry>, n: nat)
    requires 0 < n <= |thoughts|
    ensures OnBoard(thoughts[..n - 1]) <= OnBoard(thoughts[..n])
    ensures Occurrences(thoughts[n - 1].thought.annotations) <= OnBoard(thoughts[..n])
  {
    forall o | o in OnBoard(thoughts[..n - 1])
      ensures o in OnBoard(thoughts[..n])
    {
      var i: nat :| i < n - 1 && o in Occurrences(thoughts[..n - 1][i].thought.annotations);
      assert thoughts[..n][i] == thoughts[..n - 1][i];
    }
    assert thoughts[..n][n - 1] == thoughts[n - 1];
  }

  /** Counters never fall and rise no higher than they must, and a checked board is covered by its counters. */
  lemma CheckedIsCovered(counters: Counters, thoughts: seq<Entry>, lastDurable: nat)
    requires Checked(counters, thoughts, lastDurable).Some?
    ensures var board := Checked(counters, thoughts, lastDurable).value;
            && AtMost(counters, board.counters) && Covered(board) && board.thoughts == thoughts
            && NoHigher(counters, board.counters, OnBoard(thoughts)) && board.lastDurable == lastDurable
  {
    ObservedAllCovers(counters, thoughts, |thoughts|);
    assert thoughts[..|thoughts|] == thoughts;
  }

  // ---------------------------------------------------------------------------------------------
  // The aggregate as an object

  class SessionBoard {
    var thoughts: seq<Entry>
    var counters: Counters
    var lastDurable: nat

    function View(): Board
      reads this
    {
      Board(thoughts, counters, lastDurable)
    }

    constructor (board: Board)
      ensures View() == board
    {
      thoughts, counters, lastDurable := board.thoughts, board.counters, board.lastDurable;
    }

    /** The work of one mutation; on failure the thoughts may be left half changed. */
    method ApplyInPlace(mutation: Mutation) returns (ok: bool)
      modifies this`thoughts
      ensures ok == Mutated(old(thoughts), mutation).Some?
      ensures ok ==> thoughts == Mutated(old(thoughts), mutation).value
      decreases mutation, Steps(mutation)
    {
      if mutation.Batch? {
        for i := 0 to |mutation.mutations|
          invariant MutatedBy(old(thoughts), mutation, i) == Some(thoughts)
        {
          var done := ApplyInPlace(mutation.mutations[i]);
          if !done {
            BatchStops(old(thoughts), mutation, i + 1, |mutation.mutations|);
            return false;
          }
        }
        ok := true;
      } else {
        var changed := Single(thoughts, mutation);
        ok := changed.Some?;
        if ok { thoughts := changed.value; }
      }
    }

    method ObserveAttachments() returns (ok: bool)
      modifies this`counters
      ensures ok <==> Durable(thoughts)
      ensures ok ==> counters == ObservedAll(old(counters), thoughts, |thoughts|)
    {
      var seen := new AttachmentCounters(counters.image, counters.file);
      for i := 0 to |thoughts|
        invariant seen.View() == ObservedAll(old(counters), thoughts, i) && fresh(seen)
        invariant forall k :: 0 <= k < i ==> AllAssigned(thoughts[k].thought.annotations)
      {
        ok := seen.Observe(thoughts[i].thought.annotations);
        if !ok { return; }
      }
      counters := seen.View();
      ok := true;
    }

    method Validate() returns (ok: bool)
      ensures ok <==> UniqueLive(thoughts)
    {
      var taken := {};
      for i := 0 to |thoughts|
        invariant taken == Taken(thoughts, i)
        invariant forall k :: 0 <= k < i ==> UniqueAt(thoughts, k)
      {
        if Live(thoughts[i].thought) {
          ok, taken := ValidateUnique(thoughts[i].thought.annotations, taken);
          if !ok {
            assert !UniqueAt(thoughts, i);
            return;
          }
        }
      }
      ok := true;
    }

    /** Works on a copy, which replaces the board only if every step succeeded. */
    method Apply(mutation: Mutation) returns (ok: bool)
      modifies this
      ensures ok == ApplyMutation(old(View()), mutation).Some?
      ensures View() == if ok then ApplyMutation(old(View()), mutation).value else old(View())
    {
      var candidate := new SessionBoard(View());
      ok := candidate.ApplyInPlace(mutation);
      if !ok { return; }
      ok := candidate.ObserveAttachments();
      if !ok { return; }
      ok := candidate.Validate();
      if !ok { return; }
      thoughts, counters := candidate.thoughts, candidate.counters;
    }
  }

  lemma {:induction false} BatchStops(thoughts: seq<Entry>, batch: Mutation, n: nat, m: nat)
    requires batch.Batch? && n <= m <= |batch.mutations| && MutatedBy(thoughts, batch, n).None?
    ensures MutatedBy(thoughts, batch, m).None?
    decreases m
  {
    if n < m { BatchStops(thoughts, batch, n, m - 1); }
  }
}
