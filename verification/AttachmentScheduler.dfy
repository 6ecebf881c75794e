/**
 * Attachment health checks: a background queue with its shadow set, mandatory preflights of submissions with
 * priority, and one batch in flight. A ghost record of all calls carries the statements about whole runs.
 */
module AttachmentScheduler {
  import opened Options
  import opened AttachmentKeys
  import opened Preflights

  datatype Health = Unknown | Checking | Checked(verdict: Verdict)

  datatype ManualRefresh = ManualRefresh(epoch: nat, pending: set<Key>)

  const BACKGROUND_BATCH_SIZE := 16
  const MAX_ID := 0xFFFF_FFFF_FFFF_FFFF

  function Min(a: nat, b: nat): nat { if a < b then a else b }

  // ---------------------------------------------------------------------------------------------
  // Queues

  function Without(keys: seq<Key>, key: Key): seq<Key> {
    if keys == [] then []
    else if keys[0] == key then Without(keys[1..], key)
    else [keys[0]] + Without(keys[1..], key)
  }

  /** Keys put in front, the first one foremost, leaving their old places. */
  function Fronted(queue: seq<Key>, keys: seq<Key>): seq<Key> {
    if keys == [] then queue else [keys[0]] + Without(Fronted(queue, keys[1..]), keys[0])
  }

  lemma {:induction false} WithoutOne(keys: seq<Key>, key: Key)
    requires Distinct(keys)
    ensures Distinct(Without(keys, key)) && Elements(Without(keys, key)) == Elements(keys) - {key}
  {
    if keys != [] {
      WithoutOne(keys[1..], key);
      HeadAndRest(keys);
      if keys[0] != key { Headed(keys[0], Without(keys[1..], key)); }
    }
  }

  lemma HeadAndRest(keys: seq<Key>)
    requires keys != [] && Distinct(keys)
    ensures Distinct(keys[1..]) && keys[0] !in Elements(keys[1..]) && Elements(keys) == {keys[0]} + Elements(keys[1..])
  {
    assert keys == [keys[0]] + keys[1..];
  }

  lemma Headed(key: Key, keys: seq<Key>)
    ensures Elements([key] + keys) == {key} + Elements(keys)
    ensures Distinct(keys) && key !in Elements(keys) ==> Distinct([key] + keys)
  {
  }

  /** Fronting keeps a queue free of duplicates and adds just the keys. */
  lemma {:induction false} FrontedKeys(queue: seq<Key>, keys: seq<Key>)
    requires Distinct(queue)
    ensures Distinct(Fronted(queue, keys)) && Elements(Fronted(queue, keys)) == Elements(queue) + Elements(keys)
  {
    if keys != [] {
      var rest := Fronted(queue, keys[1..]);
      FrontedKeys(queue, keys[1..]);
      WithoutOne(rest, keys[0]);
      Headed(keys[0], Without(rest, keys[0]));
      Headed(keys[0], keys[1..]);
      assert keys == [keys[0]] + keys[1..];
    }
  }

  /** A batch taken from the front leaves the rest. */
  lemma TakenFromFront(keys: seq<Key>, n: nat)
    requires Distinct(keys) && n <= |keys|
    ensures Distinct(keys[n..]) && Elements(keys) - Elements(keys[..n]) == Elements(keys[n..])
  {
    assert keys == keys[..n] + keys[n..];
  }

  lemma Appended(keys: seq<Key>, key: Key)
    requires Distinct(keys) && key !in keys
    ensures Distinct(keys + [key]) && Elements(keys + [key]) == Elements(keys) + {key}
  {
  }

  /** Keys put behind, each unless it is there already. */
  function Backed(queue: seq<Key>, keys: seq<Key>): seq<Key> {
    if keys == [] then queue
    else
      var before, key := Backed(queue, keys[..|keys| - 1]), keys[|keys| - 1];
      if key in before then before else before + [key]
  }

  /** The wanted ones among the keys. */
  ghost function Chosen(keys: seq<Key>, wanted: iset<Key>): seq<Key> {
    if keys == [] then [] else (if keys[0] in wanted then [keys[0]] else []) + Chosen(keys[1..], wanted)
  }

  lemma {:induction false} BackedKeys(queue: seq<Key>, keys: seq<Key>)
    requires Distinct(queue)
    ensures Distinct(Backed(queue, keys)) && Elements(Backed(queue, keys)) == Elements(queue) + Elements(keys)
    ensures queue <= Backed(queue, keys)
  {
    if keys != [] {
      var before, key := Backed(queue, keys[..|keys| - 1]), keys[|keys| - 1];
      BackedKeys(queue, keys[..|keys| - 1]);
      assert keys == keys[..|keys| - 1] + [key];
      assert Elements(keys) == Elements(keys[..|keys| - 1]) + {key};
      if key !in before { Appended(before, key); } else { assert key in Elements(before); }
    }
  }

  lemma {:induction false} BackedTwice(queue: seq<Key>, a: seq<Key>, b: seq<Key>)
    ensures Backed(Backed(queue, a), b) == Backed(queue, a + b)
  {
    if b == [] {
      assert a + [] == a;
    } else {
      BackedTwice(queue, a, b[..|b| - 1]);
      assert (a + b)[..|a + b| - 1] == a + b[..|b| - 1];
    }
  }

  lemma {:induction false} ChosenOfBoth(a: seq<Key>, b: seq<Key>, wanted: iset<Key>)
    ensures Chosen(a + b, wanted) == Chosen(a, wanted) + Chosen(b, wanted)
  {
    if a == [] {
      assert a + b == b;
    } else {
      ChosenOfBoth(a[1..], b, wanted);
      assert (a + b)[1..] == a[1..] + b && (a + b)[0] == a[0];
      Joined(if a[0] in wanted then [a[0]] else [], Chosen(a[1..], wanted), Chosen(b, wanted));
    }
  }

  lemma Joined(a: seq<Key>, b: seq<Key>, c: seq<Key>)
    ensures a + (b + c) == a + b + c
  {
  }

  lemma {:induction false} ChosenKeys(keys: seq<Key>, wanted: iset<Key>)
    ensures Elements(Chosen(keys, wanted)) == set key | key in keys && key in wanted
  {
    if keys != [] {
      ChosenKeys(keys[1..], wanted);
      assert keys == [keys[0]] + keys[1..];
      if keys[0] in wanted { Headed(keys[0], Chosen(keys[1..], wanted)); }
      else { assert [] + Chosen(keys[1..], wanted) == Chosen(keys[1..], wanted); }
    }
  }

  lemma BackedChosen(queue: seq<Key>, a: seq<Key>, b: seq<Key>, wanted: iset<Key>)
    ensures Backed(Backed(queue, Chosen(a, wanted)), Chosen(b, wanted)) == Backed(queue, Chosen(a + b, wanted))
  {
    ChosenOfBoth(a, b, wanted);
    BackedTwice(queue, Chosen(a, wanted), Chosen(b, wanted));
  }

  lemma ChosenOne(key: Key, wanted: iset<Key>)
    ensures Chosen([key], wanted) == if key in wanted then [key] else []
  {
    assert Chosen([key][1..], wanted) == [];
  }

  /** Going on from the back, one more key moves to the front if it is wanted. */
  lemma FrontedOne(queue: seq<Key>, keys: seq<Key>, i: nat, wanted: iset<Key>)
    requires i < |keys|
    ensures var later := Fronted(queue, Chosen(keys[i + 1..], wanted));
            Fronted(queue, Chosen(keys[i..], wanted)) ==
            if keys[i] in wanted then [keys[i]] + Without(later, keys[i]) else later
  {
    var later := Chosen(keys[i + 1..], wanted);
    assert keys[i..][1..] == keys[i + 1..];
    assert ([keys[i]] + later)[1..] == later && [] + later == later;
  }

  /** Going on from the front, one more key is queued if it is wanted. */
  lemma BackedOne(queue: seq<Key>, keys: seq<Key>, i: nat, wanted: iset<Key>)
    requires i < |keys|
    ensures Backed(queue, Chosen(keys[..i + 1], wanted)) ==
            Backed(Backed(queue, Chosen(keys[..i], wanted)), if keys[i] in wanted then [keys[i]] else [])
  {
    assert keys[..i + 1] == keys[..i] + [keys[i]];
    BackedChosen(queue, keys[..i], [keys[i]], wanted);
    ChosenOne(keys[i], wanted);
  }

  lemma OneOfThought(known: map<ThoughtId, seq<Key>>, id: ThoughtId, i: nat)
    requires i < |KeysOf(known, id)|
    ensures KeysOf(known, id)[i] in AllKeys(known)
  {
    assert id in known && known[id][i] in known[id];
  }

  /** The keys of the board: the focused thought first, then the others in order. */
  function BoardOrder(known: map<ThoughtId, seq<Key>>, board: seq<Card>, focused: Option<ThoughtId>): seq<Key> {
    FocusedKeys(known, focused) + OthersOrder(known, board, focused, |board|)
  }

  function FocusedKeys(known: map<ThoughtId, seq<Key>>, focused: Option<ThoughtId>): seq<Key> {
    if focused.Some? then KeysOf(known, focused.value) else []
  }

  function OthersOrder(known: map<ThoughtId, seq<Key>>, board: seq<Card>, focused: Option<ThoughtId>, n: nat): seq<Key>
    requires n <= |board|
  {
    if n == 0 then []
    else
      OthersOrder(known, board, focused, n - 1) + OtherKeys(known, focused, board[n - 1].id)
  }

  function OtherKeys(known: map<ThoughtId, seq<Key>>, focused: Option<ThoughtId>, id: ThoughtId): seq<Key> {
    if Some(id) == focused then [] else KeysOf(known, id)
  }

  /** The keys of a list that another one does not have, in order. */
  function Rest(keys: seq<Key>, other: seq<Key>): seq<Key> {
    if keys == [] then [] else (if keys[0] in other then [] else [keys[0]]) + Rest(keys[1..], other)
  }

  lemma {:induction false} RestWithout(keys: seq<Key>, key: Key, other: seq<Key>)
    requires key !in other
    ensures Without(other + Rest(keys, other), key) == other + Rest(keys, [key] + other)
  {
    WithoutOfBoth(other, Rest(keys, other), key);
    WithoutNone(other, key);
    RestOfRest(keys, key, other);
  }

  lemma {:induction false} WithoutOfBoth(a: seq<Key>, b: seq<Key>, key: Key)
    ensures Without(a + b, key) == Without(a, key) + Without(b, key)
  {
    if a == [] {
      assert a + b == b;
    } else {
      WithoutOfBoth(a[1..], b, key);
      assert (a + b)[1..] == a[1..] + b && (a + b)[0] == a[0];
      if a[0] != key { Joined([a[0]], Without(a[1..], key), Without(b, key)); }
    }
  }

  lemma {:induction false} WithoutNone(keys: seq<Key>, key: Key)
    requires key !in keys
    ensures Without(keys, key) == keys
  {
    if keys != [] { WithoutNone(keys[1..], key); }
  }

  lemma {:induction false} RestOfRest(keys: seq<Key>, key: Key, other: seq<Key>)
    ensures Without(Rest(keys, other), key) == Rest(keys, [key] + other)
  {
    if keys != [] {
      RestOfRest(keys[1..], key, other);
      WithoutOfBoth(if keys[0] in other then [] else [keys[0]], Rest(keys[1..], other), key);
      assert [keys[0]][1..] == [];
    }
  }

  /** Fronted keys stand first, in their order, and the rest of the queue behind them, in its order. */
  lemma {:induction false} FrontedStandFirst(queue: seq<Key>, keys: seq<Key>)
    requires Distinct(keys)
    ensures Fronted(queue, keys) == keys + Rest(queue, keys)
  {
    if keys == [] {
      NothingLeftOut(queue);
    } else {
      var key, tail := keys[0], keys[1..];
      HeadAndRest(keys);
      assert key !in tail by { assert key in tail ==> key in Elements(tail); }
      FrontedStandFirst(queue, tail);
      RestWithout(queue, key, tail);
      assert keys == [key] + tail;
      Joined([key], tail, Rest(queue, keys));
    }
  }

  lemma {:induction false} NothingLeftOut(queue: seq<Key>)
    ensures Rest(queue, []) == queue
  {
    if queue != [] { NothingLeftOut(queue[1..]); }
  }

  /** Backed keys stand behind the queue, in their order, those that it does not have yet. */
  lemma {:induction false} BackedStandLast(queue: seq<Key>, keys: seq<Key>)
    requires Distinct(keys)
    ensures Backed(queue, keys) == queue + Rest(keys, queue)
  {
    if keys == [] {
      assert queue + [] == queue;
    } else {
      var n := |keys| - 1;
      BackedStandLast(queue, keys[..n]);
      assert keys == keys[..n] + [keys[n]];
      RestOfBoth(keys[..n], [keys[n]], queue);
      assert [keys[n]][1..] == [];
      RestIsOf(keys[..n], queue, keys[n]);
    }
  }

  lemma {:induction false} RestOfBoth(a: seq<Key>, b: seq<Key>, other: seq<Key>)
    ensures Rest(a + b, other) == Rest(a, other) + Rest(b, other)
  {
    if a == [] {
      assert a + b == b;
    } else {
      RestOfBoth(a[1..], b, other);
      assert (a + b)[1..] == a[1..] + b && (a + b)[0] == a[0];
      Joined(if a[0] in other then [] else [a[0]], Rest(a[1..], other), Rest(b, other));
    }
  }

  lemma {:induction false} RestIsOf(keys: seq<Key>, other: seq<Key>, key: Key)
    ensures key in Rest(keys, other) <==> key in keys && key !in other
  {
    if keys != [] {
      RestIsOf(keys[1..], other, key);
      assert keys == [keys[0]] + keys[1..];
    }
  }

  /** Behind the focused thought's keys the others' come in the order of the board. */
  lemma {:induction false} OrderFollowsBoard(known: map<ThoughtId, seq<Key>>, board: seq<Card>,
                                             focused: Option<ThoughtId>, i: nat, j: nat, n: nat)
    returns (between: seq<Key>, before: seq<Key>, after: seq<Key>)
    requires i < j < n <= |board| && Some(board[i].id) != focused && Some(board[j].id) != focused
    ensures OthersOrder(known, board, focused, n) ==
            before + KeysOf(known, board[i].id) + between + KeysOf(known, board[j].id) + after
  {
    if j < n - 1 {
      var earlier;
      between, before, earlier := OrderFollowsBoard(known, board, focused, i, j, n - 1);
      var last := OtherKeys(known, focused, board[n - 1].id);
      Joined(before + KeysOf(known, board[i].id) + between + KeysOf(known, board[j].id), earlier, last);
      after := earlier + last;
    } else {
      before, between := OrderUpTo(known, board, focused, i, n - 1);
      after := [];
    }
  }

  lemma {:induction false} OrderUpTo(known: map<ThoughtId, seq<Key>>, board: seq<Card>, focused: Option<ThoughtId>,
                                     i: nat, n: nat)
    returns (before: seq<Key>, after: seq<Key>)
    requires i < n <= |board| && Some(board[i].id) != focused
    ensures OthersOrder(known, board, focused, n) == before + KeysOf(known, board[i].id) + after
  {
    if i < n - 1 {
      var earlier;
      before, earlier := OrderUpTo(known, board, focused, i, n - 1);
      var last := OtherKeys(known, focused, board[n - 1].id);
      Joined(before + KeysOf(known, board[i].id), earlier, last);
      after := earlier + last;
    } else {
      before, after := OthersOrder(known, board, focused, n - 1), [];
    }
  }

  /** Every key of the board is in it. */
  lemma OrderHasAll(board: seq<Card>, focused: Option<ThoughtId>)
    ensures AllKeys(KnownOf(board)) <= Elements(BoardOrder(KnownOf(board), board, focused))
  {
    var known := KnownOf(board);
    forall key | key in AllKeys(known)
      ensures key in BoardOrder(known, board, focused)
    {
      var id :| id in known && key in known[id];
      var i := CardOf(board, id);
      if Some(id) != focused { InOthers(known, board, focused, |board|, i, key); }
    }
  }

  lemma {:induction false} InOthers(known: map<ThoughtId, seq<Key>>, board: seq<Card>, focused: Option<ThoughtId>,
                                    n: nat, i: nat, key: Key)
    requires i < n <= |board| && Some(board[i].id) != focused && key in KeysOf(known, board[i].id)
    ensures key in OthersOrder(known, board, focused, n)
  {
    if i < n - 1 { InOthers(known, board, focused, n - 1, i, key); }
  }

  /** What became of a queue: a new background batch took its front, or it stayed. */
  predicate Dispatched(queue: seq<Key>, before: Option<InFlight>, after: Option<InFlight>, background: seq<Key>) {
    if before.None? && after.Some? && after.value.purpose == Background
    then after.value.keys + background == queue && |after.value.keys| == Min(BACKGROUND_BATCH_SIZE, |queue|)
    else background == queue
  }

  /** Renamed keys keep their places; others stay while the board has them. */
  function Remapped(queue: seq<Key>, renamed: map<Key, Key>, current: set<Key>): seq<Key> {
    if queue == [] then []
    else
      (if queue[0] in renamed then [renamed[queue[0]]] else if queue[0] in current then [queue[0]] else []) +
      Remapped(queue[1..], renamed, current)
  }

  lemma {:induction false} RemappedKeys(queue: seq<Key>, renamed: map<Key, Key>, current: set<Key>)
    requires Distinct(queue) && Injective(renamed)
    requires forall key :: key in queue && key !in renamed && key in current ==> key !in renamed.Values
    ensures Distinct(Remapped(queue, renamed, current))
    ensures forall key :: key in Remapped(queue, renamed, current) ==> Origin(queue, renamed, current, key)
  {
    if queue != [] {
      HeadAndRest(queue);
      RemappedKeys(queue[1..], renamed, current);
      var rest := Remapped(queue[1..], renamed, current);
      forall key | key in rest
        ensures Origin(queue, renamed, current, key)
      {
        assert Origin(queue[1..], renamed, current, key);
      }
      if queue[0] in renamed {
        NewName(queue, renamed, current, renamed[queue[0]]);
        Headed(renamed[queue[0]], rest);
      } else if queue[0] in current {
        NewName(queue, renamed, current, queue[0]);
        Headed(queue[0], rest);
      } else {
        assert [] + rest == rest;
      }
    }
  }

  /** If the board still has all keys of a queue, each keeps its place, under its new name if it has one. */
  lemma {:induction false} RemappedKeepsPlaces(queue: seq<Key>, renamed: map<Key, Key>, current: set<Key>)
    requires forall key :: key in queue ==> key in renamed || key in current
    ensures |Remapped(queue, renamed, current)| == |queue|
    ensures forall i :: 0 <= i < |queue| ==>
              Remapped(queue, renamed, current)[i] == if queue[i] in renamed then renamed[queue[i]] else queue[i]
  {
    if queue != [] { RemappedKeepsPlaces(queue[1..], renamed, current); }
  }

  /** Where a key of the remapped queue came from. */
  ghost predicate Origin(queue: seq<Key>, renamed: map<Key, Key>, current: set<Key>, key: Key) {
    || (key in queue && key !in renamed && key in current)
    || (exists before :: before in queue && before in renamed && renamed[before] == key)
  }

  lemma NewName(queue: seq<Key>, renamed: map<Key, Key>, current: set<Key>, name: Key)
    requires queue != [] && Distinct(queue) && Injective(renamed)
    requires forall key :: key in queue && key !in renamed && key in current ==> key !in renamed.Values
    requires forall key :: key in Remapped(queue[1..], renamed, current) ==> Origin(queue[1..], renamed, current, key)
    requires if queue[0] in renamed then name == renamed[queue[0]] else queue[0] in current && name == queue[0]
    ensures name !in Elements(Remapped(queue[1..], renamed, current))
  {
    HeadAndRest(queue);
    assert name in Remapped(queue[1..], renamed, current) ==> Origin(queue[1..], renamed, current, name);
  }

  /** What `Migration` promises is what remapping the queue needs. */
  lemma MigrationFits(before: map<ThoughtId, seq<Key>>, after: map<ThoughtId, seq<Key>>, changed: seq<ThoughtId>,
                      renamed: map<Key, Key>, queue: seq<Key>)
    requires ProperKeys(before) && ProperKeys(after) && Migration(before, after, changed, renamed)
    requires forall key :: key in queue ==> key in AllKeys(before)
    ensures forall key :: key in queue && key !in renamed && key in AllKeys(after) ==> key !in renamed.Values
  {
    forall key | key in queue && key !in renamed && key in AllKeys(after)
      ensures key !in renamed.Values
    {
      assert key in KeysOf(before, key.thought) && key in KeysOf(after, key.thought);
      assert key.thought in changed ==> KeepsNames(KeysOf(before, key.thought), KeysOf(after, key.thought), renamed);
      assert forall other :: other in renamed ==> Renames(before, after, renamed, other);
    }
  }

  lemma RemappedStayKnown(before: map<ThoughtId, seq<Key>>, after: map<ThoughtId, seq<Key>>, changed: seq<ThoughtId>,
                          renamed: map<Key, Key>, queue: seq<Key>, key: Key)
    requires Migration(before, after, changed, renamed) && Origin(queue, renamed, AllKeys(after), key)
    ensures key in AllKeys(after)
  {
    if !(key in queue && key !in renamed && key in AllKeys(after)) {
      var other :| other in queue && other in renamed && renamed[other] == key;
      assert Renames(before, after, renamed, other);
    }
  }

  lemma RemappedQueue(before: map<ThoughtId, seq<Key>>, after: map<ThoughtId, seq<Key>>, changed: seq<ThoughtId>,
                      renamed: map<Key, Key>, queue: seq<Key>)
    requires ProperKeys(before) && ProperKeys(after) && Migration(before, after, changed, renamed)
    requires Distinct(queue) && Elements(queue) <= AllKeys(before)
    ensures Distinct(Remapped(queue, renamed, AllKeys(after)))
    ensures Elements(Remapped(queue, renamed, AllKeys(after))) <= AllKeys(after)
  {
    MigrationFits(before, after, changed, renamed, queue);
    RemappedKeys(queue, renamed, AllKeys(after));
    forall key | key in Remapped(queue, renamed, AllKeys(after))
      ensures key in AllKeys(after)
    {
      RemappedStayKnown(before, after, changed, renamed, queue, key);
    }
  }

  lemma SameKnown(before: map<ThoughtId, seq<Key>>, after: map<ThoughtId, seq<Key>>, changed: seq<ThoughtId>)
    requires changed == [] && forall id :: id in changed <==> Differs(before, after, id)
    ensures before == after && Migration(before, after, changed, map[]) && Stable(before, after, changed, map[])
  {
    forall id
      ensures id in before <==> id in after
      ensures id in before ==> before[id] == after[id]
    {
      assert !Differs(before, after, id);
    }
  }

  lemma {:induction false} NothingRemapped(queue: seq<Key>, known: map<ThoughtId, seq<Key>>)
    requires Elements(queue) <= AllKeys(known)
    ensures Remapped(queue, map[], AllKeys(known)) == queue
  {
    if queue != [] {
      assert queue == [queue[0]] + queue[1..];
      assert queue[0] in Elements(queue);
      NothingRemapped(queue[1..], known);
    }
  }

  function Migrated(health: map<Key, Health>, changed: seq<ThoughtId>, renamed: map<Key, Key>, current: set<Key>)
    : map<Key, Health>
    requires Injective(renamed)
  {
    (map key | key in health && key.thought !in changed && key in current :: health[key]) +
    map key | key in renamed && key in health :: renamed[key] := health[key]
  }

  /** A renamed key has the result of its old name, one of an unchanged thought its own, and no other key has one. */
  ghost predicate ResultFollows(before: map<Key, Verdict>, after: map<Key, Verdict>, changed: seq<ThoughtId>,
                                renamed: map<Key, Key>, current: set<Key>, key: Key)
  {
    && (key in renamed ==>
          (renamed[key] in after <==> key in before) && (key in before ==> after[renamed[key]] == before[key]))
    && (key.thought !in changed ==>
          (key in after <==> key in before && key in current) && (key in after ==> after[key] == before[key]))
    && (key.thought in changed && key !in renamed.Values ==> key !in after)
  }

  /** A key that the board still has keeps its result, and no other one has any. */
  ghost predicate ResultStays(before: map<Key, Verdict>, after: map<Key, Verdict>, current: set<Key>, key: Key) {
    (key in after <==> key in before && key in current) && (key in after ==> after[key] == before[key])
  }

  ghost predicate KeepsResults(before: map<Key, Verdict>, after: map<Key, Verdict>, current: set<Key>) {
    forall key :: ResultStays(before, after, current, key)
  }

  ghost predicate CarriesHealth(before: map<Key, Verdict>, after: map<Key, Verdict>, changed: seq<ThoughtId>,
                                renamed: map<Key, Key>, current: set<Key>)
  {
    forall key :: ResultFollows(before, after, changed, renamed, current, key)
  }

  lemma MigratedCarries(health: map<Key, Health>, changed: seq<ThoughtId>, renamed: map<Key, Key>, current: set<Key>)
    requires Injective(renamed)
    requires forall key :: key in renamed ==> key.thought in changed && renamed[key].thought == key.thought
    ensures CarriesHealth(Verdicts(health), Verdicts(Migrated(health, changed, renamed, current)), changed, renamed,
                          current)
  {
    forall key
      ensures ResultFollows(Verdicts(health), Verdicts(Migrated(health, changed, renamed, current)), changed, renamed,
                            current, key)
    {
      if key in renamed { OwnName(health, renamed, key); }
    }
  }

  lemma OwnName(health: map<Key, Health>, renamed: map<Key, Key>, key: Key)
    requires Injective(renamed) && key in renamed
    ensures forall other :: other in renamed && renamed[other] == renamed[key] ==> other == key
  {
  }

  /** A manual refresh waits for the keys it waited for, under their new names, as far as the board has them. */
  function RenamedPending(manual: Option<ManualRefresh>, renamed: map<Key, Key>, current: set<Key>)
    : Option<ManualRefresh>
  {
    if manual.None? then None
    else
      var pending := manual.value.pending;
      Some(manual.value.(pending := (set key | key in pending && key in renamed :: renamed[key]) +
                                    (set key | key in pending && key !in renamed && key in current)))
  }

  /** The present name of a key that a batch was sent with. */
  function PresentName(replacements: map<Key, Key>, key: Key): Key {
    if key in replacements then replacements[key] else key
  }

  /** Names on file are renamed, and a key of the batch in flight that is renamed itself gets its new name. */
  function Realiased(replacements: map<Key, Key>, flight: Option<InFlight>, renamed: map<Key, Key>): map<Key, Key> {
    (map key | key in replacements ::
       if replacements[key] in renamed then renamed[replacements[key]] else replacements[key]) +
    if flight.None? then map[]
    else map key | key in flight.value.keys && key in renamed :: renamed[key]
  }

  /** So an answer to the batch in flight reaches the present name of its key, however often it was renamed. */
  lemma NamesFollow(replacements: map<Key, Key>, flight: Option<InFlight>, renamed: map<Key, Key>, key: Key)
    requires flight.Some? && key in flight.value.keys
    ensures var name := PresentName(replacements, key);
            PresentName(Realiased(replacements, flight, renamed), key) ==
            if key in renamed then renamed[key] else if name in renamed then renamed[name] else name
  {
  }

  /** The health of keys that the board still has. */
  function Kept(health: map<Key, Health>, current: set<Key>): map<Key, Health> {
    map key | key in health && key in current :: health[key]
  }

  // ---------------------------------------------------------------------------------------------
  // The scheduler

  /** The results on file. */
  function Verdicts(health: map<Key, Health>): map<Key, Verdict> {
    map key | key in health && health[key].Checked? :: health[key].verdict
  }

  lemma VerdictsStay(health: map<Key, Health>, key: Key)
    requires !(key in health && health[key].Checked?)
    ensures Verdicts(health[key := Checking]) == Verdicts(health)
  {
  }

  /** In a batch whose answer will still count. */
  predicate CheckedBy(flight: Option<InFlight>, epoch: nat, replacements: map<Key, Key>, key: Key) {
    && flight.Some?
    && (flight.value.purpose == Background ==> flight.value.epoch == epoch)
    && exists candidate :: candidate in flight.value.keys &&
         (candidate == key || (candidate in replacements && replacements[candidate] == key))
  }

  /** Keys to be checked: all, or those without a result; but none that a batch is checking. */
  ghost function Desired(flight: Option<InFlight>, epoch: nat, replacements: map<Key, Key>, results: map<Key, Verdict>,
                         force: bool): iset<Key>
  {
    iset key | !CheckedBy(flight, epoch, replacements, key) && (force || key !in results)
  }

  /** Keys that no batch is checking for this generation. */
  ghost function Unchecked(flight: Option<InFlight>, epoch: nat, replacements: map<Key, Key>): iset<Key> {
    iset key | !CheckedBy(flight, epoch, replacements, key)
  }

  /** The queue of a new generation: every key that no batch is checking, the focused thought's first. */
  ghost function Renewal(board: seq<Card>, focused: Option<ThoughtId>, flight: Option<InFlight>, epoch: nat,
                         replacements: map<Key, Key>): seq<Key>
  {
    Backed([], Chosen(BoardOrder(KnownOf(board), board, focused), Unchecked(flight, epoch, replacements)))
  }

  /** The keys of a submission's next batch. */
  function Foremost(remaining: seq<Key>): seq<Key> { remaining[..Min(PREFLIGHT_BATCH_SIZE, |remaining|)] }

  function Shortened(preflight: Preflight): Preflight {
    preflight.(remaining := preflight.remaining[Min(PREFLIGHT_BATCH_SIZE, |preflight.remaining|)..])
  }

  /** A manual refresh after an answer: a batch of its generation takes its keys out, under their present names. */
  function Remaining(manual: Option<ManualRefresh>, batch: InFlight, replacements: map<Key, Key>)
    : Option<ManualRefresh>
  {
    if manual.None? || manual.value.epoch != batch.epoch then manual
    else
      var done := set key | key in batch.keys :: if key in replacements then replacements[key] else key;
      Some(manual.value.(pending := manual.value.pending - done))
  }

  /** What the answers to a batch make of the waiting submissions. */
  function Settling(preflights: map<SubmissionId, Preflight>, batch: InFlight, results: seq<(Key, Verdict)>)
    : (map<SubmissionId, Preflight>, Option<Outcome>)
  {
    if batch.purpose == Background then (preflights, None)
    else Settled(preflights, batch.purpose.id, Failures(batch.keys, Returned(results)))
  }

  /** While a batch is out, nothing changes for the submissions that wait. */
  predicate KeepsWaiting(flight: Option<InFlight>, before: map<SubmissionId, Preflight>,
                         after: map<SubmissionId, Preflight>)
  {
    flight.Some? ==> after == before
  }

  /** A refresh asked for by the user waits for all keys, or is finished at once if there are none. */
  predicate Begins(byUser: bool, finished: bool, keys: set<Key>, epoch: nat, before: Option<ManualRefresh>,
                   after: Option<ManualRefresh>)
  {
    && finished == (byUser && keys == {})
    && after == (if !byUser then before else if finished then None else Some(ManualRefresh(epoch, keys)))
  }

  /** Nothing is pending any more. */
  predicate Finishes(manual: Option<ManualRefresh>) { manual.Some? && manual.value.pending == {} }

  /** An answered background batch moves a manual refresh on, and finishes it when nothing is left. No other does. */
  predicate Concludes(before: Option<ManualRefresh>, batch: InFlight, replacements: map<Key, Key>,
                      after: Option<ManualRefresh>, finished: bool)
  {
    if batch.purpose == Background then
      && finished == Finishes(Remaining(before, batch, replacements))
      && after == (if finished then None else Remaining(before, batch, replacements))
    else !finished && after == before
  }

  function BatchOf(inFlight: Option<InFlight>): Option<Batch> {
    if inFlight.None? then None
    else Some(Batch(inFlight.value.id, inFlight.value.purpose, inFlight.value.keys))
  }

  /** A batch is asked for only when none is out, and then it is the one in flight. */
  predicate Emits(before: Option<InFlight>, after: Option<InFlight>, effects: seq<Batch>) {
    if before.Some? then effects == [] && after == before
    else effects == if after.None? then [] else [BatchOf(after).value]
  }

  class AttachmentAccessibility {
    var known: map<ThoughtId, seq<Key>>
    var health: map<Key, Health>
    var background: seq<Key>
    var queued: set<Key>
    var preflights: map<SubmissionId, Preflight>
    var inFlight: Option<InFlight>
    var replacements: map<Key, Key>
    var nextBatchId: nat
    var epoch: nat
    var manual: Option<ManualRefresh>
    ghost var log: seq<Event>
    ghost var calls: seq<Call>

    /** The shadow set is the queue, without duplicates and of known keys. */
    ghost predicate Queued()
      reads this`background, this`queued, this`known
    {
      Distinct(background) && queued == Elements(background) && queued <= AllKeys(known) && ProperKeys(known)
    }

    /** The accounts of all submissions are in order. */
    ghost predicate Balanced()
      reads this`log, this`preflights, this`inFlight
    {
      Ledger(log, preflights, inFlight)
    }

    ghost predicate Sound()
      reads this`background, this`queued, this`known, this`log, this`preflights, this`inFlight
    {
      Queued() && Balanced()
    }

    /** Nothing waits while nothing is in flight. */
    ghost predicate WorkConserving()
      reads this
    {
      inFlight.None? ==> background == [] && preflights == map[]
    }

    /** The log and the batch in flight are what the calls and their results say. */
    ghost predicate Recorded()
      reads this
    {
      log == EventsOf(calls) && BatchOf(inFlight) == Out(calls) && Paced(calls)
    }

    ghost predicate Valid()
      reads this
    {
      Sound() && WorkConserving() && Recorded()
    }

    constructor ()
      ensures Valid() && calls == [] && inFlight == None && known == map[]
    {
      known, health, background, queued := map[], map[], [], {};
      preflights, inFlight, replacements, nextBatchId := map[], None, map[], 1;
      epoch, manual := 0, None;
      log, calls := [], [];
    }

    /** In every reachable state: what `PreflightIsExact` says of the calls, and no submission waits in vain. */
    lemma PreflightsAreExact(id: SubmissionId)
      requires Valid() && Tally(EventsOf(calls), id).begun == 1
      ensures var account := Tally(EventsOf(calls), id);
              && Flatten(account.batches) <= account.captured && BatchSizes(account.batches)
              && (account.reports == [] ==> Out(calls).Some?)
              && (account.reports != [] ==>
                    Flatten(account.batches) == account.captured == account.answered
                    && account.reports == [account.unproven])
    {
      PreflightIsExact(calls, preflights, inFlight, id);
    }

    predicate HasResult(key: Key)
      reads this`health
    {
      key in health && health[key].Checked?
    }

    predicate InCurrentFlight(key: Key)
      reads this`inFlight, this`epoch, this`replacements
    {
      CheckedBy(inFlight, epoch, replacements, key)
    }

    predicate Wants(key: Key, force: bool)
      reads this`health, this`inFlight, this`epoch, this`replacements
    {
      !InCurrentFlight(key) && (force || !HasResult(key))
    }

    ghost function Wanted(force: bool): iset<Key>
      reads this`health, this`inFlight, this`epoch, this`replacements
    {
      Desired(inFlight, epoch, replacements, Verdicts(health), force)
    }

    lemma WantedAreDesired(key: Key, force: bool)
      ensures key in Wanted(force) <==> Wants(key, force)
    {
    }

    lemma ForcedUnlessChecked()
      ensures Wanted(true) == Unchecked(inFlight, epoch, replacements)
    {
    }

    /** Keys without a result are marked as being checked. */
    method MarkChecking(keys: seq<Key>)
      modifies this`health
      ensures Verdicts(health) == Verdicts(old(health)) && forall key :: HasResult(key) == old(HasResult(key))
      ensures forall key :: key in keys ==> key in health && health[key] != Unknown
    {
      for i := 0 to |keys|
        invariant Verdicts(health) == Verdicts(old(health)) && forall key :: HasResult(key) == old(HasResult(key))
        invariant forall j :: 0 <= j < i ==> keys[j] in health && health[keys[j]] != Unknown
      {
        if !HasResult(keys[i]) {
          VerdictsStay(health, keys[i]);
          health := health[keys[i] := Checking];
        }
      }
    }

    // -------------------------------------------------------------------------------------------
    // Sending

    /** Sends the next batch, if none is out: the smallest waiting submission first, else the background queue. */
    method Schedule() returns (effects: seq<Batch>)
      requires Sound()
      modifies this`health, this`background, this`queued, this`preflights, this`inFlight, this`nextBatchId, this`log
      ensures Sound() && WorkConserving() && forall key :: HasResult(key) == old(HasResult(key))
      ensures Verdicts(health) == Verdicts(old(health))
      ensures Emits(old(inFlight), inFlight, effects) && log == old(log) + SentIn(effects)
      ensures Dispatched(old(background), old(inFlight), inFlight, background)
      ensures preflights.Keys == old(preflights).Keys
      ensures old(inFlight).Some? ==> unchanged(this`preflights)
      ensures old(inFlight).None? && inFlight.Some? ==>
        && inFlight.value.keys != [] && inFlight.value.id == old(nextBatchId) && inFlight.value.epoch == epoch
        && (if old(preflights) == map[] then inFlight.value.purpose == Background && preflights == map[]
            else inFlight.value.purpose.SubmissionPreflight?
                 && Smallest(old(preflights).Keys, inFlight.value.purpose.id)
                 && inFlight.value.keys == Foremost(old(preflights)[inFlight.value.purpose.id].remaining)
                 && preflights == old(preflights)[inFlight.value.purpose.id :=
                                                    Shortened(old(preflights)[inFlight.value.purpose.id])])
    {
      effects := [];
      if inFlight.Some? || (preflights == map[] && background == []) {
        assert log + [] == log;
        return;
      }
      var batch;
      if preflights == map[] {
        batch := TakeBackground();
      } else {
        batch := TakePreflight();
      }
      nextBatchId := if nextBatchId >= MAX_ID then 1 else nextBatchId + 1;
      inFlight := Some(batch);
      MarkChecking(batch.keys);
      effects := [Batch(batch.id, batch.purpose, batch.keys)];
      SentInOne(effects[0]);
    }

    method TakeBackground() returns (batch: InFlight)
      requires Sound() && inFlight == None && preflights == map[] && background != []
      modifies this`background, this`queued
      ensures batch == InFlight(nextBatchId, Background, batch.keys, epoch)
      ensures batch.keys + background == old(background) && log + [] == log
      ensures |batch.keys| == Min(BACKGROUND_BATCH_SIZE, |old(background)|)
      ensures Distinct(background) && queued == Elements(background) && queued <= old(queued)
      ensures Ledger(log, preflights, Some(batch))
    {
      var n := Min(BACKGROUND_BATCH_SIZE, |background|);
      batch := InFlight(nextBatchId, Background, background[..n], epoch);
      TakenFromFront(background, n);
      BackgroundKeepsLedger(log, preflights, inFlight, Some(batch));
      queued := queued - Elements(background[..n]);
      background := background[n..];
    }

    method TakePreflight() returns (batch: InFlight)
      requires Sound() && inFlight == None && preflights != map[]
      modifies this`preflights, this`log
      ensures batch.purpose.SubmissionPreflight? && Smallest(old(preflights).Keys, batch.purpose.id)
      ensures batch == InFlight(nextBatchId, batch.purpose, batch.keys, epoch)
      ensures batch.keys == Foremost(old(preflights)[batch.purpose.id].remaining) && batch.keys != []
      ensures preflights == old(preflights)[batch.purpose.id := Shortened(old(preflights)[batch.purpose.id])]
      ensures preflights.Keys == old(preflights).Keys && log == old(log) + [Sent(batch.purpose.id, batch.keys)]
      ensures Ledger(log, preflights, Some(batch))
    {
      var id := TakeSmallest(preflights.Keys);
      assert Accounted(Tally(log, id), Lookup(preflights, id), FlightOf(inFlight, id));
      var n := Min(PREFLIGHT_BATCH_SIZE, |preflights[id].remaining|);
      batch := InFlight(nextBatchId, SubmissionPreflight(id), preflights[id].remaining[..n], epoch);
      SendKeepsLedger(log, preflights, id, n, batch);
      preflights := preflights[id := preflights[id].(remaining := preflights[id].remaining[n..])];
      log := log + [Sent(id, batch.keys)];
    }

    /** Queues a fresh check of the captured keys; a submission without keys has its outcome at once. */
    method BeginPreflight(id: SubmissionId, keys: seq<Key>) returns (effects: seq<Batch>, outcome: Option<Outcome>)
      requires Valid()
      modifies this`health, this`background, this`queued, this`preflights, this`inFlight, this`nextBatchId, this`log
      modifies this`calls
      ensures Valid() && calls == old(calls) + [Beginning(id, keys, effects, outcome)]
      ensures Emits(old(inFlight), inFlight, effects)
      ensures Dispatched(old(background), old(inFlight), inFlight, background)
      ensures outcome == if keys == [] then Some(Outcome(id, 0)) else None
      ensures keys != [] ==> id in preflights
      ensures Verdicts(health) == Verdicts(old(health))
      ensures old(preflights) == map[] && keys != [] && old(inFlight).None? ==>
                inFlight == Some(InFlight(old(nextBatchId), SubmissionPreflight(id), Foremost(keys), epoch)) &&
                preflights == map[id := Shortened(Preflight(keys, 0))]
    {
      if keys == [] {
        effects, outcome := [], Some(Outcome(id, 0));
        EmptyKeepsLedger(log, preflights, inFlight, id);
        log := log + [Began(id, keys)] + ReportOf(outcome);
      } else {
        outcome := None;
        effects := Admit(id, keys);
      }
      BeganEvents(old(log), id, keys, outcome);
      RecordCall(Beginning(id, keys, effects, outcome), old(inFlight), old(log), [Began(id, keys)]);
    }

    /** The keys of a submission wait for their turn, which may have come. */
    method Admit(id: SubmissionId, keys: seq<Key>) returns (effects: seq<Batch>)
      requires Sound() && keys != []
      modifies this`health, this`background, this`queued, this`preflights, this`inFlight, this`nextBatchId, this`log
      ensures Sound() && WorkConserving() && Emits(old(inFlight), inFlight, effects)
      ensures Dispatched(old(background), old(inFlight), inFlight, background)
      ensures log == old(log) + [Began(id, keys)] + SentIn(effects) && id in preflights
      ensures Verdicts(health) == Verdicts(old(health))
      ensures old(preflights) == map[] && old(inFlight).None? ==>
                inFlight == Some(InFlight(old(nextBatchId), SubmissionPreflight(id), Foremost(keys), epoch)) &&
                preflights == map[id := Shortened(Preflight(keys, 0))]
    {
      BeginKeepsLedger(log, preflights, inFlight, id, keys);
      preflights := preflights[id := Preflight(keys, 0)];
      log := log + [Began(id, keys)];
      ghost var waiting := preflights;
      effects := Schedule();
      if old(preflights) == map[] && old(inFlight).None? { assert waiting == map[id := Preflight(keys, 0)]; }
    }

    // -------------------------------------------------------------------------------------------
    // Completion

    /** The key under which an answer is kept, if the board still has it. */
    function CurrentResultKey(key: Key): Option<Key>
      reads this`known, this`replacements
    {
      var candidate := if key in replacements then replacements[key] else key;
      if candidate.thought in known && candidate in known[candidate.thought] then Some(candidate) else None
    }

    /** Answers of a background batch from before the last refresh are stale. */
    predicate Counts(batch: InFlight)
      reads this`epoch
    {
      batch.purpose == Background ==> batch.epoch == epoch
    }

    /** The health map after the first `n` answers: each one under the current name of its key. */
    function Filed(before: map<Key, Health>, batch: InFlight, returned: map<Key, Verdict>, n: nat): map<Key, Health>
      requires n <= |batch.keys|
      reads this`known, this`replacements, this`epoch
    {
      if n == 0 then before
      else
        var earlier, target := Filed(before, batch, returned, n - 1), CurrentResultKey(batch.keys[n - 1]);
        if target.Some? && Counts(batch) then earlier[target.value := Checked(VerdictOn(batch.keys[n - 1], returned))]
        else earlier
    }

    /** A current answer is on file, unless a later one of the batch is filed under the same key. */
    lemma {:induction false} FiledAnswer(before: map<Key, Health>, batch: InFlight, returned: map<Key, Verdict>, n: nat,
                                         i: nat)
      requires i < n <= |batch.keys| && Counts(batch) && CurrentResultKey(batch.keys[i]).Some?
      requires forall j :: i < j < n ==> CurrentResultKey(batch.keys[j]) != CurrentResultKey(batch.keys[i])
      ensures var key, after := CurrentResultKey(batch.keys[i]).value, Filed(before, batch, returned, n);
              key in after && after[key] == Checked(VerdictOn(batch.keys[i], returned))
    {
      if i < n - 1 { FiledAnswer(before, batch, returned, n - 1, i); }
    }

    /** Keys without a current answer keep their health. */
    lemma {:induction false} FiledOthers(before: map<Key, Health>, batch: InFlight, returned: map<Key, Verdict>, n: nat,
                                         key: Key)
      requires n <= |batch.keys|
      requires Counts(batch) ==> forall i :: 0 <= i < n ==> CurrentResultKey(batch.keys[i]) != Some(key)
      ensures var after := Filed(before, batch, returned, n);
              (key in after <==> key in before) && (key in before ==> after[key] == before[key])
    {
      if n > 0 { FiledOthers(before, batch, returned, n - 1, key); }
    }

    /** Files the answers and counts the keys not proven available. */
    method ApplyResults(batch: InFlight, returned: map<Key, Verdict>) returns (failures: nat)
      modifies this`health
      ensures failures == Failures(batch.keys, returned)
      ensures health == Filed(old(health), batch, returned, |batch.keys|)
    {
      failures := 0;
      for i := 0 to |batch.keys|
        invariant failures == Failures(batch.keys[..i], returned)
        invariant health == Filed(old(health), batch, returned, i)
      {
        var key := batch.keys[i];
        var result := if key in returned then returned[key] else Failed;
        FailuresOfMore(batch.keys, i, returned);
        if result != IsAvailable {
          failures := failures + 1;
        }
        FileAnswer(batch, key, result);
      }
      assert batch.keys[..|batch.keys|] == batch.keys;
    }

    method FileAnswer(batch: InFlight, key: Key, result: Verdict)
      modifies this`health
      ensures health == if CurrentResultKey(key).Some? && Counts(batch)
                        then old(health)[CurrentResultKey(key).value := Checked(result)] else old(health)
    {
      var target := CurrentResultKey(key);
      if target.Some? && (batch.purpose != Background || batch.epoch == epoch) {
        health := health[target.value := Checked(result)];
      }
    }

    /** Whether the batch completes the manual refresh. */
    method FinishManualRefreshBatch(batch: InFlight) returns (finished: bool)
      modifies this`manual
      ensures finished == Finishes(Remaining(old(manual), batch, replacements))
      ensures manual == if finished then None else Remaining(old(manual), batch, replacements)
    {
      if manual.None? { return false; }
      if manual.value.epoch == batch.epoch {
        var done := set key | key in batch.keys :: if key in replacements then replacements[key] else key;
        manual := Some(manual.value.(pending := manual.value.pending - done));
      }
      finished := manual.value.pending == {};
      if finished { manual := None; }
    }

    method FinishPreflightBatch(id: SubmissionId, failures: nat) returns (outcome: Option<Outcome>)
      modifies this`preflights
      ensures (preflights, outcome) == Settled(old(preflights), id, failures)
    {
      if id !in preflights { return None; }
      preflights := preflights[id := preflights[id].(inaccessible := preflights[id].inaccessible + failures)];
      if preflights[id].remaining != [] { return None; }
      outcome := Some(Outcome(id, preflights[id].inaccessible));
      preflights := preflights - {id};
      assert preflights == old(preflights) - {id};
    }

    /** Takes the answers of the batch in flight into account; afterwards none is in flight. */
    method SettleBatch(results: seq<(Key, Verdict)>) returns (outcome: Option<Outcome>, refreshed: bool)
      requires Sound() && inFlight.Some?
      modifies this`health, this`preflights, this`inFlight, this`manual, this`log
      ensures Sound() && inFlight == None
      ensures var batch := old(inFlight).value;
              && health == Filed(old(health), batch, Returned(results), |batch.keys|)
              && log == old(log) + AnswerIn(batch, results) + ReportOf(outcome)
              && (batch.purpose == Background ==> outcome == None)
              && (preflights, outcome) == Settling(old(preflights), batch, results)
              && Concludes(old(manual), batch, replacements, manual, refreshed)
    {
      var batch := inFlight.value;
      var returned := Returned(results);
      var failures := ApplyResults(batch, returned);
      inFlight := None;
      outcome, refreshed := None, false;
      match batch.purpose {
        case Background =>
          BackgroundKeepsLedger(log, preflights, Some(batch), None);
          refreshed := FinishManualRefreshBatch(batch);
          assert log == log + [] + [];
        case SubmissionPreflight(submission) =>
          AnswerKeepsLedger(log, preflights, batch, submission, returned);
          outcome := FinishPreflightBatch(submission, failures);
          log := log + [Answered(submission, batch.keys, returned)] + ReportOf(outcome);
      }
    }

    /** A completion counts only for the batch in flight; then the next batch is sent. */
    method Complete(id: nat, purpose: Purpose, results: seq<(Key, Verdict)>)
      returns (effects: seq<Batch>, outcome: Option<Outcome>, refreshed: bool)
      requires Valid()
      modifies this
      ensures Valid() && calls == old(calls) + [Completion(id, purpose, results, effects, outcome)]
      ensures known == old(known) && epoch == old(epoch)
      ensures if old(inFlight).None? || id != old(inFlight).value.id || purpose != old(inFlight).value.purpose then
                && effects == [] && outcome == None && !refreshed && preflights == old(preflights)
                && inFlight == old(inFlight) && background == old(background) && health == old(health)
                && manual == old(manual)
              else
                && Emits(None, inFlight, effects) && Dispatched(old(background), None, inFlight, background)
                && Concludes(old(manual), old(inFlight).value, old(replacements), manual, refreshed)
                && outcome == Settling(old(preflights), old(inFlight).value, results).1
                && preflights.Keys == Settling(old(preflights), old(inFlight).value, results).0.Keys
                && replacements == old(replacements) - Elements(old(inFlight).value.keys)
                && (inFlight.Some? ==>
                      inFlight.value.keys != [] && (preflights == map[] ==> inFlight.value.purpose == Background))
                && Verdicts(health) == Verdicts(old(Filed(health, inFlight.value, Returned(results),
                                                          |inFlight.value.keys|)))
    {
      if inFlight.Some? && id == inFlight.value.id && purpose == inFlight.value.purpose {
        effects, outcome, refreshed := Conclude(results);
      } else {
        effects, outcome, refreshed := [], None, false;
        FirstOfCompletion(Out(calls), inFlight, id, purpose, results, [], None);
        EventsRegroup(log, [], [], []);
        RecordCall(Completion(id, purpose, results, [], None), inFlight, log, []);
      }
    }

    /** The completion of the batch in flight, put on record. */
    method Conclude(results: seq<(Key, Verdict)>)
      returns (effects: seq<Batch>, outcome: Option<Outcome>, refreshed: bool)
      requires Valid() && inFlight.Some?
      modifies this
      ensures Valid() && known == old(known) && epoch == old(epoch)
      ensures var batch := old(inFlight).value;
              calls == old(calls) + [Completion(batch.id, batch.purpose, results, effects, outcome)]
      ensures Emits(None, inFlight, effects) && Dispatched(old(background), None, inFlight, background)
      ensures Concludes(old(manual), old(inFlight).value, old(replacements), manual, refreshed)
      ensures outcome == Settling(old(preflights), old(inFlight).value, results).1
      ensures preflights.Keys == Settling(old(preflights), old(inFlight).value, results).0.Keys
      ensures inFlight.Some? ==>
                inFlight.value.keys != [] && (preflights == map[] ==> inFlight.value.purpose == Background)
      ensures replacements == old(replacements) - Elements(old(inFlight).value.keys)
      ensures Verdicts(health) ==
              Verdicts(old(Filed(health, inFlight.value, Returned(results), |inFlight.value.keys|)))
    {
      var batch := inFlight.value;
      effects, outcome, refreshed := FinishBatch(results);
      FirstOfCompletion(Out(calls), Some(batch), batch.id, batch.purpose, results, effects, outcome);
      RecordCall(Completion(batch.id, batch.purpose, results, effects, outcome), Some(batch), old(log),
                 AnswerIn(batch, results));
    }

    method FinishBatch(results: seq<(Key, Verdict)>)
      returns (effects: seq<Batch>, outcome: Option<Outcome>, refreshed: bool)
      requires Sound() && inFlight.Some?
      modifies this`health, this`background, this`queued, this`preflights, this`inFlight, this`nextBatchId, this`log,
               this`manual, this`replacements
      ensures Sound() && WorkConserving() && Emits(None, inFlight, effects)
      ensures log == old(log) + AnswerIn(old(inFlight).value, results) + ReportOf(outcome) + SentIn(effects)
      ensures Dispatched(old(background), None, inFlight, background)
      ensures Concludes(old(manual), old(inFlight).value, old(replacements), manual, refreshed)
      ensures outcome == Settling(old(preflights), old(inFlight).value, results).1
      ensures preflights.Keys == Settling(old(preflights), old(inFlight).value, results).0.Keys
      ensures inFlight.Some? ==>
                inFlight.value.keys != [] && (preflights == map[] ==> inFlight.value.purpose == Background)
      ensures replacements == old(replacements) - Elements(old(inFlight).value.keys)
      ensures Verdicts(health) ==
              Verdicts(old(Filed(health, inFlight.value, Returned(results), |inFlight.value.keys|)))
    {
      var keys := inFlight.value.keys;
      outcome, refreshed := SettleBatch(results);
      replacements := replacements - Elements(keys);
      effects := Schedule();
    }

    // -------------------------------------------------------------------------------------------
    // Filling the background queue

    /** Adds the wanted keys of a thought behind the queue. */
    method EnqueueThoughtBack(id: ThoughtId, force: bool)
      requires Queued()
      modifies this`background, this`queued
      ensures Queued() && background == Backed(old(background), Chosen(KeysOf(known, id), Wanted(force)))
    {
      var keys := KeysOf(known, id);
      ghost var wanted := Wanted(force);
      for i := 0 to |keys|
        invariant Queued() && Wanted(force) == wanted
        invariant background == Backed(old(background), Chosen(keys[..i], wanted))
      {
        BackedOne(old(background), keys, i, wanted);
        OneOfThought(known, id, i);
        BackWanted(keys[i], force, wanted);
      }
      assert keys[..|keys|] == keys;
    }

    method BackWanted(key: Key, force: bool, ghost wanted: iset<Key>)
      requires Queued() && key in AllKeys(known) && Wanted(force) == wanted
      modifies this`background, this`queued
      ensures Queued() && Wanted(force) == wanted
      ensures background == Backed(old(background), if key in wanted then [key] else [])
    {
      if Wants(key, force) {
        PushBack(key);
      }
    }

    method PushBack(key: Key)
      requires Queued() && key in AllKeys(known)
      modifies this`background, this`queued
      ensures Queued() && background == Backed(old(background), [key])
    {
      assert Backed(background, [key][..0]) == background;
      if key !in queued {
        Appended(background, key);
        queued := queued + {key};
        background := background + [key];
      }
    }

    method PushFront(key: Key)
      requires Queued() && key in AllKeys(known)
      modifies this`background, this`queued
      ensures Queued() && background == [key] + Without(old(background), key)
    {
      WithoutOne(background, key);
      Headed(key, Without(background, key));
      background := [key] + Without(background, key);
      queued := queued + {key};
    }

    /** Moves or adds the wanted keys of a thought to the front of the queue, in their order. */
    method EnqueueThoughtFront(id: ThoughtId, force: bool)
      requires Queued()
      modifies this`background, this`queued
      ensures Queued() && background == Fronted(old(background), Chosen(KeysOf(known, id), Wanted(force)))
    {
      var keys := KeysOf(known, id);
      ghost var wanted := Wanted(force);
      var i: nat := |keys|;
      while i > 0
        invariant i <= |keys| && Queued() && Wanted(force) == wanted
        invariant background == Fronted(old(background), Chosen(keys[i..], wanted))
      {
        i := i - 1;
        FrontedOne(old(background), keys, i, wanted);
        OneOfThought(known, id, i);
        FrontWanted(keys[i], force, wanted);
      }
      assert keys[0..] == keys;
    }

    method FrontWanted(key: Key, force: bool, ghost wanted: iset<Key>)
      requires Queued() && key in AllKeys(known) && Wanted(force) == wanted
      modifies this`background, this`queued
      ensures Queued() && Wanted(force) == wanted
      ensures background == if key in wanted then [key] + Without(old(background), key) else old(background)
    {
      if Wants(key, force) {
        PushFront(key);
      }
    }

    method EnqueueUnless(focused: Option<ThoughtId>, id: ThoughtId, force: bool, ghost wanted: iset<Key>)
      requires Queued() && wanted == Wanted(force)
      modifies this`background, this`queued
      ensures Queued() && background == Backed(old(background), Chosen(OtherKeys(known, focused, id), wanted))
    {
      if Some(id) != focused {
        EnqueueThoughtBack(id, force);
      }
    }

    method EnqueueOthers(board: seq<Card>, focused: Option<ThoughtId>, force: bool, ghost wanted: iset<Key>)
      requires Queued() && wanted == Wanted(force)
      modifies this`background, this`queued
      ensures Queued()
      ensures background == Backed(old(background), Chosen(OthersOrder(known, board, focused, |board|), wanted))
    {
      for i := 0 to |board|
        invariant Queued()
        invariant background == Backed(old(background), Chosen(OthersOrder(known, board, focused, i), wanted))
      {
        BackedChosen(old(background), OthersOrder(known, board, focused, i), OtherKeys(known, focused, board[i].id),
                     wanted);
        EnqueueUnless(focused, board[i].id, force, wanted);
      }
    }

    method EnqueueFocused(focused: Option<ThoughtId>, force: bool, ghost wanted: iset<Key>)
      requires Queued() && wanted == Wanted(force)
      modifies this`background, this`queued
      ensures Queued() && background == Backed(old(background), Chosen(FocusedKeys(known, focused), wanted))
    {
      if focused.Some? {
        EnqueueThoughtBack(focused.value, force);
      }
    }

    /** Adds all wanted keys, the focused thought's first, then the board's in order. */
    method EnqueueBoard(board: seq<Card>, focused: Option<ThoughtId>, force: bool)
      requires Queued()
      modifies this`background, this`queued
      ensures Queued()
      ensures background == Backed(old(background), Chosen(BoardOrder(known, board, focused), Wanted(force)))
    {
      ghost var wanted := Wanted(force);
      BackedChosen(background, FocusedKeys(known, focused), OthersOrder(known, board, focused, |board|), wanted);
      EnqueueFocused(focused, force, wanted);
      EnqueueOthers(board, focused, force, wanted);
      assert Wanted(force) == wanted;
    }

    method EnqueueWanted(id: ThoughtId)
      requires Queued()
      modifies this`background, this`queued
      ensures Queued() && queued >= old(queued)
      ensures forall key :: key in KeysOf(known, id) && Wants(key, false) ==> key in queued
    {
      ghost var chosen := Chosen(KeysOf(known, id), Wanted(false));
      FrontedKeys(background, chosen);
      ChosenKeys(KeysOf(known, id), Wanted(false));
      EnqueueThoughtFront(id, false);
      assert queued == Elements(old(background)) + Elements(chosen);
    }

    method EnqueueFront(thoughts: seq<ThoughtId>)
      requires Queued()
      modifies this`background, this`queued
      ensures Queued() && queued >= old(queued)
      ensures forall id, key :: id in thoughts && key in KeysOf(known, id) && Wants(key, false) ==> key in queued
    {
      var i: nat := |thoughts|;
      while i > 0
        invariant i <= |thoughts| && Queued() && queued >= old(queued)
        invariant forall id, key :: id in thoughts[i..] && key in KeysOf(known, id) && Wants(key, false) ==>
                    key in queued
      {
        i := i - 1;
        assert thoughts[i..] == [thoughts[i]] + thoughts[i + 1..];
        EnqueueWanted(thoughts[i]);
      }
      assert thoughts[0..] == thoughts;
    }

    method SeedUnknown()
      modifies this`health
      ensures forall key :: HasResult(key) == old(HasResult(key))
      ensures Verdicts(health) == Verdicts(old(health)) && AllKeys(known) <= health.Keys
    {
      health := (map key | key in AllKeys(known) :: Unknown) + health;
    }

    // -------------------------------------------------------------------------------------------
    // Entry points

    /** Every key waits or is being checked for the current generation. */
    ghost predicate Attended(keys: set<Key>)
      reads this`queued, this`inFlight, this`epoch, this`replacements
    {
      forall key :: key in keys ==> key in queued || InCurrentFlight(key)
    }

    /** Ends a call that is not about a submission: sends what is due; whatever was attended to still is. */
    method Send(ghost keys: set<Key>) returns (effects: seq<Batch>)
      requires Sound() && Recorded() && Attended(keys)
      modifies this`health, this`background, this`queued, this`preflights, this`inFlight, this`nextBatchId, this`log
      modifies this`calls
      ensures Valid() && calls == old(calls) + [Other(effects)] && Attended(keys)
      ensures Verdicts(health) == Verdicts(old(health)) && forall key :: HasResult(key) == old(HasResult(key))
      ensures Emits(old(inFlight), inFlight, effects)
      ensures KeepsWaiting(old(inFlight), old(preflights), preflights)
      ensures Dispatched(old(background), old(inFlight), inFlight, background)
    {
      effects := Launch(keys);
      RecordOther(effects, old(inFlight), old(log));
    }

    /** Whatever waited now waits or is being checked. */
    method Launch(ghost keys: set<Key>) returns (effects: seq<Batch>)
      requires Sound() && Attended(keys)
      modifies this`health, this`background, this`queued, this`preflights, this`inFlight, this`nextBatchId, this`log
      ensures Sound() && WorkConserving() && Attended(keys) && Verdicts(health) == Verdicts(old(health))
      ensures forall key :: HasResult(key) == old(HasResult(key))
      ensures Emits(old(inFlight), inFlight, effects) && log == old(log) + SentIn(effects)
      ensures Dispatched(old(background), old(inFlight), inFlight, background)
      ensures KeepsWaiting(old(inFlight), old(preflights), preflights)
    {
      ghost var before := background;
      effects := Schedule();
      if old(inFlight).None? && inFlight.Some? && inFlight.value.purpose == Background {
        assert Elements(before) == Elements(inFlight.value.keys) + Elements(background);
      }
    }

    /** Puts a call that is not about a submission on record. */
    ghost method RecordOther(effects: seq<Batch>, before: Option<InFlight>, log0: seq<Event>)
      requires log0 == EventsOf(calls) && BatchOf(before) == Out(calls) && Paced(calls)
      requires log == log0 + SentIn(effects) && Emits(before, inFlight, effects)
      modifies this`calls
      ensures calls == old(calls) + [Other(effects)] && Recorded()
    {
      assert log0 + [] + [] == log0;
      RecordCall(Other(effects), before, log0, []);
    }

    ghost method RecordNothing()
      requires Valid()
      modifies this`calls
      ensures Valid() && calls == old(calls) + [Other([])]
    {
      EventsRegroup(log, [], [], []);
      RecordCall(Other([]), inFlight, log, []);
    }

    /** Seeds the queue of a new scheduler with the board's keys that have no result yet. */
    method Start(board: seq<Card>, focused: Option<ThoughtId>) returns (effects: seq<Batch>)
      requires Valid() && background == [] && IsBoard(board)
      modifies this
      ensures Valid() && calls == old(calls) + [Other(effects)] && known == KnownOf(board)
      ensures Emits(old(inFlight), inFlight, effects)
      ensures Verdicts(health) == Verdicts(old(health))
      ensures Dispatched(Backed([], Chosen(BoardOrder(known, board, focused), old(Wanted(false)))), old(inFlight),
                         inFlight, background)
    {
      Seed(board, focused);
      effects := Send({});
    }

    method Seed(board: seq<Card>, focused: Option<ThoughtId>)
      requires Queued() && background == [] && IsBoard(board)
      modifies this`known, this`health, this`background, this`queued
      ensures Queued() && known == KnownOf(board)
      ensures Verdicts(health) == Verdicts(old(health))
      ensures background == Backed([], Chosen(BoardOrder(known, board, focused), old(Wanted(false))))
    {
      LearnBoard(board);
      EnqueueBoard(board, focused, false);
    }

    method LearnBoard(board: seq<Card>)
      requires background == [] && queued == {} && IsBoard(board)
      modifies this`known, this`health
      ensures Queued() && known == KnownOf(board) && Verdicts(health) == Verdicts(old(health))
    {
      known := KnownOf(board);
      BoardKeysAreProper(board);
      SeedUnknown();
    }

    method PrioritizeFocus(id: ThoughtId) returns (effects: seq<Batch>)
      requires Valid()
      modifies this
      ensures Valid() && calls == old(calls) + [Other(effects)] && known == old(known)
      ensures Verdicts(health) == Verdicts(old(health))
      ensures Emits(old(inFlight), inFlight, effects)
      ensures Dispatched(Fronted(old(background), old(Chosen(KeysOf(known, id), Wanted(false)))), old(inFlight),
                         inFlight, background)
    {
      EnqueueThoughtFront(id, false);
      effects := Send({});
    }

    /** A refresh attends to every key of the board; answers of older background batches no longer count. */
    method RefreshAll(board: seq<Card>, focused: Option<ThoughtId>, byUser: bool)
      returns (effects: seq<Batch>, finished: bool)
      requires Valid() && IsBoard(board)
      modifies this
      ensures Valid() && calls == old(calls) + [Other(effects)] && Emits(old(inFlight), inFlight, effects)
      ensures byUser || old(manual).None? ==>
        && epoch == old(epoch) + 1 && known == KnownOf(board) && Attended(AllKeys(known))
        && KeepsResults(Verdicts(old(health)), Verdicts(health), AllKeys(known))
        && Dispatched(Renewal(board, focused, old(inFlight), old(epoch) + 1, old(replacements)), old(inFlight),
                      inFlight, background)
      ensures !byUser && old(manual).Some? ==>
        effects == [] && background == old(background) && inFlight == old(inFlight) && epoch == old(epoch) &&
        health == old(health)
      ensures finished <==> byUser && AllKeys(KnownOf(board)) == {}
      ensures KeepsWaiting(old(inFlight), old(preflights), preflights)
      ensures byUser ==> manual == if finished then None else Some(ManualRefresh(epoch, AllKeys(known)))
      ensures !byUser ==> manual == old(manual)
    {
      if byUser || manual.None? {
        effects, finished := RefreshNow(board, focused, byUser);
      } else {
        effects, finished := [], false;
        RecordNothing();
      }
    }

    method RefreshNow(board: seq<Card>, focused: Option<ThoughtId>, byUser: bool)
      returns (effects: seq<Batch>, finished: bool)
      requires Valid() && IsBoard(board)
      modifies this
      ensures Valid() && calls == old(calls) + [Other(effects)] && Emits(old(inFlight), inFlight, effects)
      ensures epoch == old(epoch) + 1 && known == KnownOf(board) && Attended(AllKeys(known))
      ensures Begins(byUser, finished, AllKeys(known), epoch, old(manual), manual)
      ensures KeepsResults(Verdicts(old(health)), Verdicts(health), AllKeys(known))
      ensures KeepsWaiting(old(inFlight), old(preflights), preflights)
      ensures Dispatched(Renewal(board, focused, old(inFlight), old(epoch) + 1, old(replacements)), old(inFlight),
                         inFlight, background)
    {
      ghost var queue := Renewal(board, focused, inFlight, epoch + 1, replacements);
      finished := Renew(board, focused, byUser, queue);
      ghost var keys := AllKeys(known);
      effects := Send(keys);
      assert Valid();
      assert keys == AllKeys(known);
    }

    method Renew(board: seq<Card>, focused: Option<ThoughtId>, byUser: bool, ghost queue: seq<Key>)
      returns (finished: bool)
      requires Queued() && IsBoard(board) && queue == Renewal(board, focused, inFlight, epoch + 1, replacements)
      modifies this`epoch, this`known, this`health, this`background, this`queued, this`manual
      ensures Queued() && epoch == old(epoch) + 1 && known == KnownOf(board) && Attended(AllKeys(known))
      ensures Begins(byUser, finished, AllKeys(known), epoch, old(manual), manual)
      ensures background == queue
      ensures KeepsResults(Verdicts(old(health)), Verdicts(health), AllKeys(known))
    {
      BeginGeneration(board);
      if byUser {
        manual := Some(ManualRefresh(epoch, AllKeys(known)));
      }
      Requeue(board, focused);
      finished := byUser && AllKeys(known) == {};
      if finished { manual := None; }
    }

    /** A new generation forgets the queue and the health of keys that are gone. */
    method BeginGeneration(board: seq<Card>)
      requires Queued() && IsBoard(board)
      modifies this`epoch, this`known, this`health, this`background, this`queued
      ensures Queued() && epoch == old(epoch) + 1 && known == KnownOf(board) && background == []
      ensures KeepsResults(Verdicts(old(health)), Verdicts(health), AllKeys(known))
    {
      epoch := epoch + 1;
      background, queued := [], {};
      known := KnownOf(board);
      BoardKeysAreProper(board);
      health := Kept(health, AllKeys(known));
      SeedUnknown();
    }

    /** Fills the empty queue with all keys of the board. */
    method Requeue(board: seq<Card>, focused: Option<ThoughtId>)
      requires Queued() && known == KnownOf(board) && background == []
      modifies this`background, this`queued
      ensures Queued() && Attended(AllKeys(known))
      ensures background == Renewal(board, focused, inFlight, epoch, replacements)
    {
      ghost var order, wanted := BoardOrder(known, board, focused), Wanted(true);
      ForcedUnlessChecked();
      EnqueueBoard(board, focused, true);
      BackedKeys([], Chosen(order, wanted));
      ChosenKeys(order, wanted);
      OrderHasAll(board, focused);
    }

    /**
     * The board's keys changed: attachments that are still there keep their health and their place in the queue.
     * If any is new or gone, a manual refresh starts again, or else the changed thoughts come first.
     */
    method Reconcile(board: seq<Card>)
      returns (effects: seq<Batch>, ghost changed: seq<ThoughtId>, ghost renamed: map<Key, Key>)
      requires Valid() && IsBoard(board)
      modifies this
      ensures Valid() && calls == old(calls) + [Other(effects)] && Emits(old(inFlight), inFlight, effects)
      ensures known == KnownOf(board) && forall id :: id in changed <==> Differs(old(known), known, id)
      ensures Migration(old(known), known, changed, renamed)
      ensures changed != [] ==>
        CarriesHealth(Verdicts(old(health)), Verdicts(health), changed, renamed, AllKeys(known)) &&
        replacements == Realiased(old(replacements), old(inFlight), renamed)
      ensures changed == [] ==>
        effects == [] && background == old(background) && health == old(health) && manual == old(manual) &&
        replacements == old(replacements)
      ensures Stable(old(known), known, changed, renamed) ==>
        Dispatched(Remapped(old(background), renamed, AllKeys(known)), old(inFlight), inFlight, background) &&
        (changed != [] ==> manual == RenamedPending(old(manual), renamed, AllKeys(known)))
      ensures !Stable(old(known), known, changed, renamed) ==>
        if old(manual).Some? then epoch == old(epoch) + 1 && Attended(AllKeys(known)) else CaredFor(changed)
    {
      var differing := ChangedThoughts(known, KnownOf(board));
      changed, renamed, effects := differing, map[], [];
      if differing == [] {
        SameKnown(known, KnownOf(board), differing);
        NothingRemapped(background, known);
        RecordNothing();
      } else {
        ghost var stable;
        effects, renamed, stable := Adopt(board, differing);
      }
    }

    method Adopt(board: seq<Card>, changed: seq<ThoughtId>)
      returns (effects: seq<Batch>, ghost renamed: map<Key, Key>, ghost stable: bool)
      requires Valid() && IsBoard(board) && Increasing(changed) && changed != []
      modifies this
      ensures Valid() && calls == old(calls) + [Other(effects)] && Emits(old(inFlight), inFlight, effects)
      ensures known == KnownOf(board) && Migration(old(known), known, changed, renamed)
      ensures stable == Stable(old(known), known, changed, renamed)
      ensures CarriesHealth(Verdicts(old(health)), Verdicts(health), changed, renamed, AllKeys(known))
      ensures replacements == Realiased(old(replacements), old(inFlight), renamed)
      ensures stable ==>
        Dispatched(Remapped(old(background), renamed, AllKeys(known)), old(inFlight), inFlight, background) &&
        manual == RenamedPending(old(manual), renamed, AllKeys(known))
      ensures !stable ==>
        if old(manual).Some? then epoch == old(epoch) + 1 && Attended(AllKeys(known)) else CaredFor(changed)
    {
      ghost var waiting;
      renamed, stable, waiting := Reorganize(board, changed);
      effects := Send(waiting);
      if !stable && old(manual).None? { CaredIfAttended(changed, waiting); }
    }

    /** Everything under its new name, and queued again where the change calls for it. */
    method Reorganize(board: seq<Card>, changed: seq<ThoughtId>)
      returns (ghost renamed: map<Key, Key>, ghost stable: bool, ghost waiting: set<Key>)
      requires Queued() && IsBoard(board) && Increasing(changed) && changed != []
      modifies this`epoch, this`known, this`health, this`background, this`queued, this`manual, this`replacements
      ensures Queued() && Attended(waiting)
      ensures known == KnownOf(board) && Migration(old(known), known, changed, renamed)
      ensures stable == Stable(old(known), known, changed, renamed)
      ensures CarriesHealth(Verdicts(old(health)), Verdicts(health), changed, renamed, AllKeys(known))
      ensures replacements == Realiased(old(replacements), inFlight, renamed)
      ensures stable ==>
        background == Remapped(old(background), renamed, AllKeys(known)) &&
        manual == RenamedPending(old(manual), renamed, AllKeys(known))
      ensures !stable ==>
        if old(manual).Some? then epoch == old(epoch) + 1 && waiting == AllKeys(known)
        else waiting == Unresolved(changed)
    {
      var names, same := Rename(board, changed);
      renamed, stable := names, same;
      waiting := Refill(board, changed, same);
    }

    lemma CaredIfAttended(thoughts: seq<ThoughtId>, waiting: set<Key>)
      requires Queued() && Attended(waiting) && waiting == Unresolved(thoughts)
      ensures CaredFor(thoughts)
    {
      forall id, key | id in thoughts && key in KeysOf(known, id)
        ensures key in queued || InCurrentFlight(key) || HasResult(key)
      {
        assert Proper(id, known[id]) && key in AllKeys(known);
        assert HasResult(key) || key in waiting;
      }
    }

    /** Everything under its new name. */
    method Rename(board: seq<Card>, changed: seq<ThoughtId>) returns (renamed: map<Key, Key>, stable: bool)
      requires Queued() && IsBoard(board) && Increasing(changed)
      modifies this`known, this`health, this`background, this`queued, this`manual, this`replacements
      ensures Queued() && known == KnownOf(board)
      ensures manual == RenamedPending(old(manual), renamed, AllKeys(known))
      ensures replacements == Realiased(old(replacements), inFlight, renamed)
      ensures Migration(old(known), known, changed, renamed)
      ensures stable <==> Stable(old(known), known, changed, renamed)
      ensures CarriesHealth(Verdicts(old(health)), Verdicts(health), changed, renamed, AllKeys(known))
      ensures background == Remapped(old(background), renamed, AllKeys(known))
    {
      BoardKeysAreProper(board);
      renamed, stable := Migrate(known, KnownOf(board), changed);
      AdoptKeys(KnownOf(board), changed, renamed);
      RemapFlight(renamed);
    }

    /** After a change that is not just a renaming, keys are queued again: all, or those of the changed thoughts. */
    method Refill(board: seq<Card>, changed: seq<ThoughtId>, stable: bool) returns (ghost waiting: set<Key>)
      requires Queued() && known == KnownOf(board) && changed != []
      modifies this`epoch, this`manual, this`background, this`queued
      ensures Queued() && Attended(waiting)
      ensures stable ==> background == old(background) && epoch == old(epoch) && manual == old(manual)
      ensures !stable && old(manual).Some? ==> epoch == old(epoch) + 1 && waiting == AllKeys(known)
      ensures !stable && old(manual).None? ==> epoch == old(epoch) && waiting == Unresolved(changed)
    {
      waiting := {};
      if stable { return; }
      if manual.Some? {
        RestartManualRefresh(board, Some(changed[0]));
        waiting := AllKeys(known);
      } else {
        EnqueueFront(changed);
        waiting := Unresolved(changed);
      }
    }

    ghost function Unresolved(thoughts: seq<ThoughtId>): set<Key>
      reads this`known, this`health
    {
      set key | key in AllKeys(known) && key.thought in thoughts && !HasResult(key)
    }

    /** The keys of these thoughts wait, are being checked, or have a result. */
    ghost predicate CaredFor(thoughts: seq<ThoughtId>)
      reads this`known, this`queued, this`inFlight, this`epoch, this`replacements, this`health
    {
      forall id, key :: id in thoughts && key in KeysOf(known, id) ==>
        key in queued || InCurrentFlight(key) || HasResult(key)
    }

    /** Health and queue under the new names. */
    method AdoptKeys(current: map<ThoughtId, seq<Key>>, changed: seq<ThoughtId>, renamed: map<Key, Key>)
      requires Queued() && ProperKeys(current) && Migration(known, current, changed, renamed)
      modifies this`known, this`health, this`background, this`queued
      ensures Queued() && known == current && AllKeys(known) <= health.Keys
      ensures CarriesHealth(Verdicts(old(health)), Verdicts(health), changed, renamed, AllKeys(known))
      ensures background == Remapped(old(background), renamed, AllKeys(current))
    {
      AdoptHealth(current, changed, renamed);
      RemappedQueue(known, current, changed, renamed, background);
      background := Remapped(background, renamed, AllKeys(current));
      queued := Elements(background);
      known := current;
      SeedUnknown();
    }

    method AdoptHealth(current: map<ThoughtId, seq<Key>>, changed: seq<ThoughtId>, renamed: map<Key, Key>)
      requires Migration(known, current, changed, renamed)
      modifies this`health
      ensures CarriesHealth(Verdicts(old(health)), Verdicts(health), changed, renamed, AllKeys(current))
    {
      assert forall key :: key in renamed ==> Renames(known, current, renamed, key);
      MigratedCarries(health, changed, renamed, AllKeys(current));
      health := Migrated(health, changed, renamed, AllKeys(current));
    }

    method RestartManualRefresh(board: seq<Card>, focused: Option<ThoughtId>)
      requires Queued() && known == KnownOf(board)
      modifies this`epoch, this`manual, this`background, this`queued
      ensures Queued() && Attended(AllKeys(known)) && epoch == old(epoch) + 1
    {
      epoch := epoch + 1;
      background, queued := [], {};
      manual := Some(ManualRefresh(epoch, AllKeys(known)));
      Requeue(board, focused);
    }

    method RemapFlight(renamed: map<Key, Key>)
      modifies this`manual, this`replacements
      ensures manual == RenamedPending(old(manual), renamed, AllKeys(known))
      ensures replacements == Realiased(old(replacements), inFlight, renamed)
    {
      if manual.Some? {
        var pending := set key | key in manual.value.pending && key in renamed :: renamed[key];
        var kept := set key | key in manual.value.pending && key !in renamed && key in AllKeys(known);
        manual := Some(manual.value.(pending := pending + kept));
      }
      replacements := map key | key in replacements ::
        if replacements[key] in renamed then renamed[replacements[key]] else replacements[key];
      if inFlight.Some? {
        replacements := replacements + map key | key in inFlight.value.keys && key in renamed :: renamed[key];
      }
    }

    /** Puts a call on record whose events are in the log. */
    ghost method RecordCall(call: Call, before: Option<InFlight>, log0: seq<Event>, first: seq<Event>)
      requires log0 == EventsOf(calls) && BatchOf(before) == Out(calls) && Paced(calls)
      requires log == log0 + first + ReportOf(OutcomeOf(call)) + SentIn(call.effects)
      requires first == FirstIn(Out(calls), call)
      requires Emits(if Answers(call, Out(calls)) then None else before, inFlight, call.effects)
      modifies this`calls
      ensures calls == old(calls) + [call] && Recorded()
    {
      CallFits(calls, call, before, inFlight, log0, first);
      calls := calls + [call];
    }
  }

  lemma CallFits(calls: seq<Call>, call: Call, before: Option<InFlight>, after: Option<InFlight>, log: seq<Event>,
                 first: seq<Event>)
    requires log == EventsOf(calls) && BatchOf(before) == Out(calls) && Paced(calls)
    requires first == FirstIn(Out(calls), call)
    requires Emits(if Answers(call, Out(calls)) then None else before, after, call.effects)
    ensures log + first + ReportOf(OutcomeOf(call)) + SentIn(call.effects) == EventsOf(calls + [call])
    ensures BatchOf(after) == Out(calls + [call]) && Paced(calls + [call])
  {
    OneMoreCall(calls, call);
    EventsRegroup(log, first, ReportOf(OutcomeOf(call)), SentIn(call.effects));
    EventsParts(Out(calls), call);
  }

  lemma EventsParts(out: Option<Batch>, call: Call)
    ensures EventsIn(out, call) == FirstIn(out, call) + ReportOf(OutcomeOf(call)) + SentIn(call.effects)
  {
  }

  /** A missing answer is a failure. */
  function VerdictOn(key: Key, returned: map<Key, Verdict>): Verdict {
    if key in returned then returned[key] else Failed
  }

  function AnswerIn(batch: InFlight, results: seq<(Key, Verdict)>): seq<Event> {
    if batch.purpose == Background then [] else [Answered(batch.purpose.id, batch.keys, Returned(results))]
  }

  function OutcomeOf(call: Call): Option<Outcome> { if call.Other? then None else call.outcome }

  /** What a call says before its outcome and its batches. */
  function FirstIn(out: Option<Batch>, call: Call): seq<Event> {
    if call.Beginning? then [Began(call.id, call.keys)]
    else if Answers(call, out) && call.purpose.SubmissionPreflight?
    then [Answered(call.purpose.id, out.value.checks, Returned(call.results))]
    else []
  }

  lemma FirstOfCompletion(out: Option<Batch>, inFlight: Option<InFlight>, id: nat, purpose: Purpose,
                          results: seq<(Key, Verdict)>, effects: seq<Batch>, outcome: Option<Outcome>)
    requires BatchOf(inFlight) == out
    ensures var call := Completion(id, purpose, results, effects, outcome);
            if inFlight.None? || id != inFlight.value.id || purpose != inFlight.value.purpose
            then !Answers(call, out) && FirstIn(out, call) == []
            else Answers(call, out) && FirstIn(out, call) == AnswerIn(inFlight.value, results)
  {
  }

  lemma EventsRegroup(a: seq<Event>, b: seq<Event>, c: seq<Event>, d: seq<Event>)
    ensures a + b + c + d == a + (b + c + d)
    ensures a + [] + [] + [] == a
  {
  }

  lemma BeganEvents(log: seq<Event>, id: SubmissionId, keys: seq<Key>, outcome: Option<Outcome>)
    ensures outcome.None? ==> log + [Began(id, keys)] + ReportOf(outcome) == log + [Began(id, keys)]
    ensures log + [Began(id, keys)] + ReportOf(outcome) + SentIn([]) == log + [Began(id, keys)] + ReportOf(outcome)
  {
  }

  // ---------------------------------------------------------------------------------------------
  // A refresh that stays unfinished

  lemma {:induction false} OrderIsOfBoard(known: map<ThoughtId, seq<Key>>, board: seq<Card>, focused: Option<ThoughtId>,
                                          n: nat)
    requires n <= |board|
    ensures forall key :: key in OthersOrder(known, board, focused, n) ==> key in AllKeys(known)
  {
    if n > 0 { OrderIsOfBoard(known, board, focused, n - 1); }
  }

  lemma {:induction false} NoneChosen(keys: seq<Key>, wanted: iset<Key>)
    requires forall key :: key in keys ==> key !in wanted
    ensures Chosen(keys, wanted) == []
  {
    if keys != [] { NoneChosen(keys[1..], wanted); }
  }

  /** If a batch is checking every key of the board, a new generation has nothing to queue. */
  lemma NothingToQueue(board: seq<Card>, focused: Option<ThoughtId>, flight: Option<InFlight>, epoch: nat,
                       replacements: map<Key, Key>)
    requires forall key :: key in AllKeys(KnownOf(board)) ==> CheckedBy(flight, epoch, replacements, key)
    ensures Renewal(board, focused, flight, epoch, replacements) == []
  {
    var known := KnownOf(board);
    var order, wanted := BoardOrder(known, board, focused), Unchecked(flight, epoch, replacements);
    OrderIsOfBoard(known, board, focused, |board|);
    forall key | key in order
      ensures key !in wanted
    {
      assert key in AllKeys(known);
    }
    NoneChosen(order, wanted);
  }

  lemma AllAreChecked(board: seq<Card>, focused: Option<ThoughtId>, flight: Option<InFlight>, epoch: nat,
                      replacements: map<Key, Key>, keys: seq<Key>)
    requires flight.Some? && flight.value.purpose.SubmissionPreflight? && flight.value.keys == keys != []
    requires Elements(keys) == AllKeys(KnownOf(board))
    ensures Renewal(board, focused, flight, epoch, replacements) == [] && AllKeys(KnownOf(board)) != {}
  {
    forall key | key in AllKeys(KnownOf(board))
      ensures CheckedBy(flight, epoch, replacements, key)
    {
      assert key in Elements(keys) && key in flight.value.keys;
    }
    NothingToQueue(board, focused, flight, epoch, replacements);
    assert keys[0] in Elements(keys);
  }

  /** A batch with these keys is out for a submission, and nothing waits. */
  ghost predicate OnlyChecks(state: AttachmentAccessibility, id: SubmissionId, keys: seq<Key>)
    reads state
  {
    state.Valid() && state.background == [] && OnlyWaits(state.preflights, id) && IsOut(state.inFlight, id, keys)
  }

  /** All keys of the only submission are sent. */
  predicate OnlyWaits(preflights: map<SubmissionId, Preflight>, id: SubmissionId) {
    preflights == map[id := Preflight([], 0)]
  }

  predicate IsOut(flight: Option<InFlight>, id: SubmissionId, keys: seq<Key>) {
    flight.Some? && flight.value.purpose == SubmissionPreflight(id) && flight.value.keys == keys
  }

  method CheckForSubmission(id: SubmissionId, keys: seq<Key>) returns (state: AttachmentAccessibility)
    requires 0 < |keys| <= PREFLIGHT_BATCH_SIZE
    ensures fresh(state) && OnlyChecks(state, id, keys)
  {
    state := new AttachmentAccessibility();
    assert Foremost(keys) == keys && Shortened(Preflight(keys, 0)) == Preflight([], 0);
    var effects, outcome := state.BeginPreflight(id, keys);
  }

  /** A refresh of a board whose keys are all being checked queues nothing. */
  method RefreshWhileChecking(state: AttachmentAccessibility, board: seq<Card>, focused: Option<ThoughtId>)
    requires state.Valid() && IsBoard(board) && AllKeys(KnownOf(board)) != {} && state.inFlight.Some?
    requires Renewal(board, focused, state.inFlight, state.epoch + 1, state.replacements) == []
    modifies state
    ensures state.Valid() && state.background == []
    ensures state.preflights == old(state.preflights) && state.inFlight == old(state.inFlight)
    ensures state.known == KnownOf(board) && state.manual == Some(ManualRefresh(state.epoch, AllKeys(state.known)))
  {
    ghost var queue := Renewal(board, focused, state.inFlight, state.epoch + 1, state.replacements);
    var effects, finished := state.RefreshAll(board, focused, true);
    assert Dispatched(queue, state.inFlight, state.inFlight, state.background);
  }

  method RefreshChecked(state: AttachmentAccessibility, board: seq<Card>, focused: Option<ThoughtId>,
                        ghost id: SubmissionId, ghost keys: seq<Key>)
    requires state.Valid() && IsBoard(board) && IsOut(state.inFlight, id, keys)
    requires keys != [] && Elements(keys) == AllKeys(KnownOf(board))
    modifies state
    ensures state.Valid() && state.background == []
    ensures state.preflights == old(state.preflights) && state.inFlight == old(state.inFlight)
    ensures state.manual == Some(ManualRefresh(state.epoch, AllKeys(state.known))) && AllKeys(state.known) != {}
  {
    AllAreChecked(board, focused, state.inFlight, state.epoch + 1, state.replacements, keys);
    RefreshWhileChecking(state, board, focused);
  }

  /** The last batch of the only submission leaves nothing to send. */
  method AnswerChecked(state: AttachmentAccessibility, ghost id: SubmissionId, ghost keys: seq<Key>,
                       results: seq<(Key, Verdict)>)
    returns (refreshed: bool)
    requires OnlyChecks(state, id, keys)
    modifies state
    ensures state.Valid() && !refreshed && state.inFlight == None && state.background == []
    ensures state.manual == old(state.manual) && state.known == old(state.known) && state.epoch == old(state.epoch)
  {
    var batch := state.inFlight.value;
    var effects, outcome;
    ghost var before := state.preflights;
    effects, outcome, refreshed := state.Complete(batch.id, batch.purpose, results);
    assert Settling(before, batch, results).0.Keys == {};
    assert state.preflights == map[];
  }

  /**
   * The answer to a submission's batch is not taken for one to a manual refresh, whose keys were not queued because
   * that batch was checking them. So a refresh of a board whose attachments are all being checked for a submission
   * never finishes by itself: once the batch is answered nothing waits, nothing is out, and all its keys are pending.
   */
  method RefreshDuringPreflight(board: seq<Card>, focused: Option<ThoughtId>, id: SubmissionId, keys: seq<Key>,
                                results: seq<(Key, Verdict)>)
    returns (state: AttachmentAccessibility, refreshed: bool)
    requires IsBoard(board) && 0 < |keys| <= PREFLIGHT_BATCH_SIZE && Elements(keys) == AllKeys(KnownOf(board))
    ensures fresh(state) && state.Valid() && !refreshed && state.inFlight == None && state.background == []
    ensures state.manual == Some(ManualRefresh(state.epoch, AllKeys(state.known))) && AllKeys(state.known) != {}
  {
    state := CheckForSubmission(id, keys);
    RefreshChecked(state, board, focused, id, keys);
    refreshed := AnswerChecked(state, id, keys, results);
  }
}
