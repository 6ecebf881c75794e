/**
 * Identities of attachment occurrences, and the matching of old and new ones after an edit: the same
 * attachment keeps its health and its place in the queue although its key changed.
 */
module AttachmentKeys {
  type ThoughtId = nat

  /** An exact occurrence: where it is, what it is, and the revision of the text around it. */
  datatype Key = Key(thought: ThoughtId, annotation: nat, start: nat, end: nat, image: bool, ordinal: nat,
                     name: string, path: string, revision: nat)

  /** The keys of one live thought. */
  datatype Card = Card(id: ThoughtId, keys: seq<Key>)

  ghost predicate Distinct(keys: seq<Key>) { forall i, j :: 0 <= i < j < |keys| ==> keys[i] != keys[j] }

  function Elements(keys: seq<Key>): set<Key> { set key | key in keys }

  /** Keys of a thought differ, by their annotation, and name the thought. */
  ghost predicate Proper(id: ThoughtId, keys: seq<Key>) {
    Distinct(keys) && forall key :: key in keys ==> key.thought == id
  }

  /** The live thoughts in order, each with its keys. */
  ghost predicate IsBoard(cards: seq<Card>) { forall i :: 0 <= i < |cards| ==> Proper(cards[i].id, cards[i].keys) }

  function KnownOf(board: seq<Card>): map<ThoughtId, seq<Key>> {
    if board == [] then map[] else KnownOf(board[..|board| - 1])[board[|board| - 1].id := board[|board| - 1].keys]
  }

  function AllKeys(known: map<ThoughtId, seq<Key>>): set<Key> { set id, key | id in known && key in known[id] :: key }

  ghost predicate ProperKeys(known: map<ThoughtId, seq<Key>>) { forall id :: id in known ==> Proper(id, known[id]) }

  function KeysOf(known: map<ThoughtId, seq<Key>>, id: ThoughtId): seq<Key> { if id in known then known[id] else [] }

  lemma {:induction false} BoardKeysAreProper(board: seq<Card>)
    requires IsBoard(board)
    ensures ProperKeys(KnownOf(board))
  {
    if board != [] { BoardKeysAreProper(board[..|board| - 1]); }
  }

  lemma {:induction false} CardOf(board: seq<Card>, id: ThoughtId) returns (i: nat)
    requires id in KnownOf(board)
    ensures i < |board| && board[i].id == id
  {
    if board[|board| - 1].id == id {
      i := |board| - 1;
    } else {
      i := CardOf(board[..|board| - 1], id);
    }
  }

  // ---------------------------------------------------------------------------------------------
  // Matching

  predicate SameAttachment(a: Key, b: Key) {
    a.thought == b.thought && a.image == b.image && a.ordinal == b.ordinal && a.name == b.name && a.path == b.path
  }

  ghost predicate Injective(pairs: map<Key, Key>) {
    forall a, b :: a in pairs && b in pairs && pairs[a] == pairs[b] ==> a == b
  }

  /** Old keys to new keys of the same attachment, one to one; a key that is still there keeps its name. */
  ghost predicate Matches(before: seq<Key>, after: seq<Key>, pairs: map<Key, Key>) {
    && Injective(pairs)
    && (forall key :: key in pairs ==> key in before && pairs[key] in after && SameAttachment(key, pairs[key]))
    && (forall key :: key in before && key in after ==> key in pairs && pairs[key] == key)
  }

  /** No attachment could be matched in addition. */
  ghost predicate Maximal(before: seq<Key>, after: seq<Key>, pairs: map<Key, Key>) {
    forall a, b :: a in before && b in after && SameAttachment(a, b) ==> a in pairs || b in pairs.Values
  }

  /** The first unmatched old key of the same attachment. */
  method MatchingKey(before: seq<Key>, key: Key, pairs: map<Key, Key>) returns (found: bool, partner: Key)
    ensures found ==> partner in before && partner !in pairs && SameAttachment(partner, key)
    ensures !found ==> forall other :: other in before && SameAttachment(other, key) ==> other in pairs
  {
    partner := key;
    for i := 0 to |before|
      invariant forall k :: 0 <= k < i && SameAttachment(before[k], key) ==> before[k] in pairs
    {
      if before[i] !in pairs && SameAttachment(before[i], key) {
        return true, before[i];
      }
    }
    found := false;
  }

  /** Keys that did not change, first. */
  method ExactPairs(before: seq<Key>, after: seq<Key>) returns (pairs: map<Key, Key>)
    ensures forall key :: key in pairs <==> key in before && key in after
    ensures forall key :: key in pairs ==> pairs[key] == key
  {
    pairs := map[];
    for i := 0 to |after|
      invariant forall key :: key in pairs <==> key in before && key in after[..i]
      invariant forall key :: key in pairs ==> pairs[key] == key
    {
      assert after[..i + 1] == after[..i] + [after[i]];
      if after[i] in before {
        pairs := pairs[after[i] := after[i]];
      }
    }
    assert after[..|after|] == after;
  }

  /** Then every other new key takes the first old key of its attachment that is left. */
  method MatchingKeyPairs(before: seq<Key>, after: seq<Key>) returns (pairs: map<Key, Key>)
    requires Distinct(before) && Distinct(after)
    ensures Matches(before, after, pairs) && Maximal(before, after, pairs)
  {
    pairs := ExactPairs(before, after);
    for i := 0 to |after|
      invariant Matches(before, after, pairs)
      invariant forall a, k :: a in before && 0 <= k < i && SameAttachment(a, after[k]) ==>
                  a in pairs || after[k] in pairs.Values
    {
      if after[i] !in pairs.Values {
        var found, partner := MatchingKey(before, after[i], pairs);
        if found {
          OneMorePair(before, after, pairs, partner, after[i]);
          pairs := pairs[partner := after[i]];
        }
      }
    }
  }

  lemma OneMorePair(before: seq<Key>, after: seq<Key>, pairs: map<Key, Key>, a: Key, b: Key)
    requires Matches(before, after, pairs) && a in before && a !in pairs && b in after && b !in pairs.Values
    requires SameAttachment(a, b)
    ensures Matches(before, after, pairs[a := b])
    ensures pairs.Keys <= pairs[a := b].Keys && pairs.Values <= pairs[a := b].Values && b in pairs[a := b].Values
  {
    var more := pairs[a := b];
    assert more[a] == b;
    forall v | v in pairs.Values
      ensures v in more.Values
    {
      var k :| k in pairs && pairs[k] == v;
      assert more[k] == v;
    }
  }

  // ---------------------------------------------------------------------------------------------
  // The whole board

  predicate Differs(before: map<ThoughtId, seq<Key>>, after: map<ThoughtId, seq<Key>>, id: ThoughtId) {
    (id in before || id in after) && !(id in before && id in after && before[id] == after[id])
  }

  ghost predicate Increasing(ids: seq<ThoughtId>) { forall i, j :: 0 <= i < j < |ids| ==> ids[i] < ids[j] }

  ghost predicate Smallest(ids: set<nat>, id: nat) { id in ids && forall other :: other in ids ==> id <= other }

  lemma {:induction false} SmallestExists(ids: set<nat>)
    requires ids != {}
    ensures exists id :: Smallest(ids, id)
  {
    var id :| id in ids;
    var rest := ids - {id};
    assert forall other :: other in ids <==> other == id || other in rest;
    if rest == {} {
      assert Smallest(ids, id);
    } else {
      SmallestExists(rest);
      var least :| Smallest(rest, least);
      assert Smallest(ids, if id < least then id else least);
    }
  }

  method TakeSmallest(ids: set<nat>) returns (id: nat)
    requires ids != {}
    ensures Smallest(ids, id)
  {
    SmallestExists(ids);
    assert exists id :: id in ids && forall other :: other in ids ==> id <= other by {
      var id :| Smallest(ids, id);
    }
    id :| id in ids && forall other :: other in ids ==> id <= other;
  }

  /** The thoughts whose keys changed, in order. */
  method ChangedThoughts(before: map<ThoughtId, seq<Key>>, after: map<ThoughtId, seq<Key>>)
    returns (changed: seq<ThoughtId>)
    ensures Increasing(changed) && forall id :: id in changed <==> Differs(before, after, id)
  {
    var left := set id | id in before.Keys + after.Keys && Differs(before, after, id);
    changed := [];
    while left != {}
      invariant Increasing(changed) && forall id :: Differs(before, after, id) <==> id in changed || id in left
      invariant forall a, b :: a in changed && b in left ==> a < b
      decreases |left|
    {
      var id := TakeSmallest(left);
      assert forall i :: 0 <= i < |changed| ==> changed[i] in changed;
      changed := changed + [id];
      left := left - {id};
    }
  }

  /** A renaming of the keys of changed thoughts, within each thought. */
  ghost predicate Migration(before: map<ThoughtId, seq<Key>>, after: map<ThoughtId, seq<Key>>,
                            changed: seq<ThoughtId>, renamed: map<Key, Key>) {
    && Injective(renamed)
    && (forall key :: key in renamed ==> key.thought in changed && Renames(before, after, renamed, key))
    && (forall id :: id in changed ==> KeepsNames(KeysOf(before, id), KeysOf(after, id), renamed))
  }

  ghost predicate Renames(before: map<ThoughtId, seq<Key>>, after: map<ThoughtId, seq<Key>>, renamed: map<Key, Key>,
                          key: Key)
    requires key in renamed
  {
    && key in KeysOf(before, key.thought) && renamed[key] in KeysOf(after, key.thought)
    && SameAttachment(key, renamed[key])
  }

  ghost predicate KeepsNames(before: seq<Key>, after: seq<Key>, renamed: map<Key, Key>) {
    forall key :: key in before && key in after ==> key in renamed && renamed[key] == key
  }

  /** Every attachment was found again, and none is new. */
  ghost predicate Stable(before: map<ThoughtId, seq<Key>>, after: map<ThoughtId, seq<Key>>, changed: seq<ThoughtId>,
                         renamed: map<Key, Key>) {
    forall id :: id in changed ==> Covers(KeysOf(before, id), KeysOf(after, id), renamed)
  }

  ghost predicate Covers(before: seq<Key>, after: seq<Key>, renamed: map<Key, Key>) {
    && (forall key :: key in before ==> key in renamed)
    && (forall key :: key in after ==> key in renamed.Values)
  }

  lemma {:induction false} DistinctCount(keys: seq<Key>)
    requires Distinct(keys)
    ensures |Elements(keys)| == |keys|
  {
    if keys != [] {
      DistinctCount(keys[1..]);
      assert keys == [keys[0]] + keys[1..];
      assert keys[0] !in keys[1..];
      assert Elements(keys) == {keys[0]} + Elements(keys[1..]);
    } else {
      assert Elements(keys) == {};
    }
  }

  lemma SubsetOfSameSize(a: set<Key>, b: set<Key>)
    requires a <= b
    ensures |a| <= |b| && (|a| == |b| <==> a == b)
  {
    assert b == a + (b - a);
  }

  lemma ImageWithout(pairs: map<Key, Key>, key: Key)
    requires Injective(pairs) && key in pairs
    ensures pairs.Values == (pairs - {key}).Values + {pairs[key]} && pairs[key] !in (pairs - {key}).Values
  {
    var rest := pairs - {key};
    forall v | v in pairs.Values
      ensures v in rest.Values + {pairs[key]}
    {
      var k :| k in pairs && pairs[k] == v;
      if k != key { assert rest[k] == v; }
    }
  }

  lemma {:induction false} ImageCount(pairs: map<Key, Key>)
    requires Injective(pairs)
    ensures |pairs.Values| == |pairs.Keys|
  {
    if pairs != map[] {
      var key :| key in pairs;
      ImageCount(pairs - {key});
      ImageWithout(pairs, key);
      assert pairs.Keys == (pairs - {key}).Keys + {key};
    } else {
      assert pairs.Keys == {} && pairs.Values == {};
    }
  }

  /** The sizes the code compares decide whether both sides are covered. */
  lemma SizesDecide(before: seq<Key>, after: seq<Key>, pairs: map<Key, Key>)
    requires Distinct(before) && Distinct(after) && Matches(before, after, pairs)
    ensures |pairs| == |before| && |pairs| == |after| <==> Covers(before, after, pairs)
  {
    DistinctCount(before);
    DistinctCount(after);
    ImageCount(pairs);
    assert |pairs| == |pairs.Keys|;
    SubsetOfSameSize(pairs.Keys, Elements(before));
    SubsetOfSameSize(pairs.Values, Elements(after));
  }

  /** Thought by thought. */
  method Migrate(before: map<ThoughtId, seq<Key>>, after: map<ThoughtId, seq<Key>>, changed: seq<ThoughtId>)
    returns (renamed: map<Key, Key>, stable: bool)
    requires ProperKeys(before) && ProperKeys(after) && Increasing(changed)
    ensures Migration(before, after, changed, renamed) && (stable <==> Stable(before, after, changed, renamed))
  {
    renamed, stable := map[], true;
    for i := 0 to |changed|
      invariant Migration(before, after, changed[..i], renamed)
      invariant stable <==> Stable(before, after, changed[..i], renamed)
    {
      var pairs, complete := MigrateThought(KeysOf(before, changed[i]), KeysOf(after, changed[i]));
      stable := stable && complete;
      OneMoreThought(changed, i);
      MigrationGrows(before, after, changed[..i], renamed, changed[i], pairs);
      StableGrows(before, after, changed[..i], renamed, changed[i], pairs);
      renamed := renamed + pairs;
    }
    assert changed[..|changed|] == changed;
  }

  method MigrateThought(before: seq<Key>, after: seq<Key>) returns (pairs: map<Key, Key>, complete: bool)
    requires Distinct(before) && Distinct(after)
    ensures Matches(before, after, pairs) && (complete <==> Covers(before, after, pairs))
  {
    pairs := MatchingKeyPairs(before, after);
    SizesDecide(before, after, pairs);
    complete := |pairs| == |before| && |pairs| == |after|;
  }

  lemma OneMoreThought(changed: seq<ThoughtId>, i: nat)
    requires i < |changed| && Increasing(changed)
    ensures changed[..i + 1] == changed[..i] + [changed[i]] && changed[i] !in changed[..i]
  {
  }

  lemma MigrationGrows(before: map<ThoughtId, seq<Key>>, after: map<ThoughtId, seq<Key>>, done: seq<ThoughtId>,
                       renamed: map<Key, Key>, id: ThoughtId, pairs: map<Key, Key>)
    requires ProperKeys(before) && ProperKeys(after) && id !in done
    requires Migration(before, after, done, renamed) && Matches(KeysOf(before, id), KeysOf(after, id), pairs)
    ensures Migration(before, after, done + [id], renamed + pairs)
  {
    var more := renamed + pairs;
    ThoughtsApart(before, after, done, renamed, id, pairs);
    JoinedIsInjective(renamed, pairs, id);
    forall key | key in more
      ensures key.thought in done + [id] && Renames(before, after, more, key)
    {
      if key in renamed { assert more[key] == renamed[key] && Renames(before, after, renamed, key); }
      else { assert more[key] == pairs[key]; }
    }
    forall other | other in done + [id]
      ensures KeepsNames(KeysOf(before, other), KeysOf(after, other), more)
    {
      if other in done { assert KeepsNames(KeysOf(before, other), KeysOf(after, other), renamed); }
    }
  }

  lemma JoinedIsInjective(renamed: map<Key, Key>, pairs: map<Key, Key>, id: ThoughtId)
    requires Injective(renamed) && Injective(pairs) && renamed.Keys !! pairs.Keys
    requires forall key :: key in renamed ==> renamed[key].thought != id
    requires forall key :: key in pairs ==> pairs[key].thought == id
    ensures Injective(renamed + pairs)
  {
    var more := renamed + pairs;
    forall a, b | a in more && b in more && more[a] == more[b]
      ensures a == b
    {
      assert a in pairs <==> b in pairs;
    }
  }

  lemma StableGrows(before: map<ThoughtId, seq<Key>>, after: map<ThoughtId, seq<Key>>, done: seq<ThoughtId>,
                    renamed: map<Key, Key>, id: ThoughtId, pairs: map<Key, Key>)
    requires ProperKeys(before) && ProperKeys(after) && id !in done
    requires Migration(before, after, done, renamed) && Matches(KeysOf(before, id), KeysOf(after, id), pairs)
    ensures Stable(before, after, done + [id], renamed + pairs) <==>
            (Stable(before, after, done, renamed) && Covers(KeysOf(before, id), KeysOf(after, id), pairs))
  {
    forall other | other in done
      ensures Covers(KeysOf(before, other), KeysOf(after, other), renamed + pairs) <==>
              Covers(KeysOf(before, other), KeysOf(after, other), renamed)
    {
      CoversApart(before, after, done, renamed, id, pairs, other);
    }
    CoversHere(before, after, done, renamed, id, pairs);
    assert forall other :: other in done + [id] <==> other in done || other == id;
  }

  lemma ThoughtsApart(before: map<ThoughtId, seq<Key>>, after: map<ThoughtId, seq<Key>>, done: seq<ThoughtId>,
                      renamed: map<Key, Key>, id: ThoughtId, pairs: map<Key, Key>)
    requires ProperKeys(before) && ProperKeys(after) && id !in done
    requires Migration(before, after, done, renamed) && Matches(KeysOf(before, id), KeysOf(after, id), pairs)
    ensures forall key :: key in renamed ==> key.thought in done && renamed[key].thought == key.thought
    ensures forall key :: key in pairs ==> key.thought == id && pairs[key].thought == id
    ensures renamed.Keys !! pairs.Keys
  {
    assert forall key :: key in renamed ==> Renames(before, after, renamed, key);
  }

  lemma CoversApart(before: map<ThoughtId, seq<Key>>, after: map<ThoughtId, seq<Key>>, done: seq<ThoughtId>,
                    renamed: map<Key, Key>, id: ThoughtId, pairs: map<Key, Key>, other: ThoughtId)
    requires ProperKeys(before) && ProperKeys(after) && id !in done && other in done
    requires Migration(before, after, done, renamed) && Matches(KeysOf(before, id), KeysOf(after, id), pairs)
    ensures Covers(KeysOf(before, other), KeysOf(after, other), renamed + pairs) <==>
            Covers(KeysOf(before, other), KeysOf(after, other), renamed)
  {
    ThoughtsApart(before, after, done, renamed, id, pairs);
    forall key | key in KeysOf(after, other)
      ensures key in (renamed + pairs).Values <==> key in renamed.Values
    {
      assert key.thought == other;
      ImageOfSum(renamed, pairs, key);
    }
  }

  /** Of maps on separate keys, one that does not reach a key may be left out. */
  lemma ImageOfSum(a: map<Key, Key>, b: map<Key, Key>, key: Key)
    requires a.Keys !! b.Keys
    ensures key in (a + b).Values <==> key in a.Values || key in b.Values
  {
    if key in (a + b).Values {
      var k :| k in a + b && (a + b)[k] == key;
    }
    if key in a.Values {
      var k :| k in a && a[k] == key;
      assert (a + b)[k] == key;
    }
    if key in b.Values {
      var k :| k in b && b[k] == key;
      assert (a + b)[k] == key;
    }
  }

  lemma CoversHere(before: map<ThoughtId, seq<Key>>, after: map<ThoughtId, seq<Key>>, done: seq<ThoughtId>,
                   renamed: map<Key, Key>, id: ThoughtId, pairs: map<Key, Key>)
    requires ProperKeys(before) && ProperKeys(after) && id !in done
    requires Migration(before, after, done, renamed) && Matches(KeysOf(before, id), KeysOf(after, id), pairs)
    ensures Covers(KeysOf(before, id), KeysOf(after, id), renamed + pairs) <==>
            Covers(KeysOf(before, id), KeysOf(after, id), pairs)
  {
    ThoughtsApart(before, after, done, renamed, id, pairs);
    forall key | key in KeysOf(after, id)
      ensures key in (renamed + pairs).Values <==> key in pairs.Values
    {
      assert key.thought == id;
      ImageOfSum(renamed, pairs, key);
    }
  }
}
