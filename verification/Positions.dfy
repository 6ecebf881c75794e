/** The board's two lists of items, with the loops that shift positions in place. */
module Positions {
  import opened Options
  import opened BoardOrder
  import R = Reorder

  /** A thought or a separator, live or deleted. */
  datatype Placed = Placed(id: R.Item, position: Position, live: bool)

  predicate DistinctItems(items: seq<Placed>) { forall i, j :: 0 <= i < j < |items| ==> items[i].id != items[j].id }

  /** The recorded positions of the live items, or of the deleted ones. */
  function PlacesOf(items: seq<Placed>, live: bool): Places
    requires DistinctItems(items)
  {
    map i | 0 <= i < |items| && items[i].live == live :: items[i].id := items[i].position
  }

  function ShelfOf(items: seq<Placed>): Shelf
    requires DistinctItems(items)
  {
    Shelf(PlacesOf(items, true), PlacesOf(items, false))
  }

  // ---------------------------------------------------------------------------------------------
  // What happens to the lists

  function Shift(item: Placed, shift: Position -> Position): Placed {
    if item.live then item.(position := shift(item.position)) else item
  }

  function Shifted(items: seq<Placed>, shift: Position -> Position): seq<Placed> {
    seq(|items|, i requires 0 <= i < |items| => Shift(items[i], shift))
  }

  function ForInsert(target: nat): Position -> Position { (p: Position) => if p >= target then Up(p) else p }

  function AfterRemove(removed: nat): Position -> Position { (p: Position) => if p > removed then p - 1 else p }

  function Between(from: Position, to: Position): Position -> Position {
    (p: Position) => if from < p <= to then p - 1 else if to <= p < from then p + 1 else p
  }

  /** Some item of the list is live or deleted, as asked, and has this identity. */
  ghost predicate Holds(items: seq<Placed>, live: bool, id: R.Item) {
    exists i :: 0 <= i < |items| && items[i].live == live && items[i].id == id
  }

  predicate Recorded(places: Places, item: Placed) { item.id in places && places[item.id] == item.position }

  /** What determines the recorded positions. */
  lemma PlacesAre(items: seq<Placed>, live: bool, places: Places)
    requires DistinctItems(items)
    requires forall i :: 0 <= i < |items| && items[i].live == live ==> Recorded(places, items[i])
    requires forall id :: id in places ==> Holds(items, live, id)
    ensures PlacesOf(items, live) == places
  {
  }

  lemma ShiftedHolds(items: seq<Placed>, shift: Position -> Position, live: bool, id: R.Item)
    requires DistinctItems(items) && id in PlacesOf(items, live)
    ensures Holds(Shifted(items, shift), live, id)
  {
    var i :| 0 <= i < |items| && items[i].live == live && items[i].id == id;
    assert Shifted(items, shift)[i].live == live && Shifted(items, shift)[i].id == id;
  }

  lemma ShiftedDead(items: seq<Placed>, shift: Position -> Position)
    requires DistinctItems(items)
    ensures DistinctItems(Shifted(items, shift))
    ensures PlacesOf(Shifted(items, shift), false) == PlacesOf(items, false)
  {
    forall id | id in PlacesOf(items, false)
      ensures Holds(Shifted(items, shift), false, id)
    {
      ShiftedHolds(items, shift, false, id);
    }
    PlacesAre(Shifted(items, shift), false, PlacesOf(items, false));
  }

  function ShiftedAll(live: Places, shift: Position -> Position): Places { map id | id in live :: shift(live[id]) }

  lemma ShiftedLive(items: seq<Placed>, shift: Position -> Position)
    requires DistinctItems(items)
    ensures DistinctItems(Shifted(items, shift))
    ensures PlacesOf(Shifted(items, shift), true) == ShiftedAll(PlacesOf(items, true), shift)
  {
    forall id | id in PlacesOf(items, true)
      ensures Holds(Shifted(items, shift), true, id)
    {
      ShiftedHolds(items, shift, true, id);
    }
    PlacesAre(Shifted(items, shift), true, ShiftedAll(PlacesOf(items, true), shift));
  }

  lemma ShiftedParts(a: seq<Placed>, b: seq<Placed>, shift: Position -> Position)
    ensures Shifted(a, shift) + Shifted(b, shift) == Shifted(a + b, shift)
  {
  }

  /** Recorded positions when one item takes the place of another with its identity. */
  function PlacesWith(places: Places, item: Placed, live: bool): Places {
    if item.live == live then places[item.id := item.position] else places - {item.id}
  }

  /** One list of items where another has one of them changed, or one more. */
  ghost predicate Replaced(items: seq<Placed>, after: seq<Placed>, item: Placed) {
    && (exists k :: 0 <= k < |after| && after[k] == item)
    && (forall i :: 0 <= i < |items| && items[i].id != item.id ==> items[i] in after)
    && (forall k :: 0 <= k < |after| ==> after[k] == item || (after[k] in items && after[k].id != item.id))
  }

  lemma PlacesAfterReplacing(items: seq<Placed>, after: seq<Placed>, item: Placed, live: bool)
    requires DistinctItems(items) && DistinctItems(after) && Replaced(items, after, item)
    ensures PlacesOf(after, live) == PlacesWith(PlacesOf(items, live), item, live)
  {
    forall id | id in PlacesWith(PlacesOf(items, live), item, live)
      ensures Holds(after, live, id)
    {
      if id != item.id {
        var i :| 0 <= i < |items| && items[i].live == live && items[i].id == id;
        assert items[i] in after;
      }
    }
    PlacesAre(after, live, PlacesWith(PlacesOf(items, live), item, live));
  }

  lemma SetReplaces(items: seq<Placed>, i: nat, item: Placed)
    requires DistinctItems(items) && i < |items| && items[i].id == item.id
    ensures DistinctItems(items[i := item]) && Replaced(items, items[i := item], item)
  {
    var after := items[i := item];
    assert after[i] == item;
    forall j | 0 <= j < |items| && items[j].id != item.id
      ensures items[j] in after
    {
      assert after[j] == items[j];
    }
  }

  lemma PushReplaces(a: seq<Placed>, b: seq<Placed>, item: Placed)
    requires DistinctItems(a + b) && forall i :: 0 <= i < |a + b| ==> (a + b)[i].id != item.id
    ensures DistinctItems(a + [item] + b) && Replaced(a + b, a + [item] + b, item)
  {
    var items, after := a + b, a + [item] + b;
    assert after[|a|] == item;
    forall k | 0 <= k < |after|
      ensures after[k] == item || (after[k] in items && after[k].id != item.id)
    {
      if k != |a| { assert after[k] == items[if k < |a| then k else k - 1]; }
    }
    forall j | 0 <= j < |items|
      ensures items[j] in after
    {
      assert after[if j < |a| then j else j + 1] == items[j];
    }
    forall j, k | 0 <= j < k < |after|
      ensures after[j].id != after[k].id
    {
      assert j != |a| ==> after[j] == items[if j < |a| then j else j - 1];
      assert k != |a| ==> after[k] == items[if k < |a| then k else k - 1];
    }
  }

  // ---------------------------------------------------------------------------------------------
  // The lists themselves

  class BoardItems {
    var thoughts: seq<Placed>
    var separators: seq<Placed>

    ghost predicate Valid()
      reads this
    {
      && DistinctItems(thoughts + separators)
      && (forall i :: 0 <= i < |thoughts| ==> thoughts[i].id.ThoughtItem?)
      && (forall i :: 0 <= i < |separators| ==> separators[i].id.SeparatorItem?)
    }

    ghost function View(): Shelf
      requires Valid()
      reads this
    {
      ShelfOf(thoughts + separators)
    }

    constructor ()
      ensures Valid() && View() == Shelf(map[], map[])
    {
      thoughts, separators := [], [];
    }

    // -------------------------------------------------------------------------------------------
    // Shifting

    static method ShiftedForInsert(items: seq<Placed>, target: nat) returns (shifted: seq<Placed>)
      ensures shifted == Shifted(items, ForInsert(target))
    {
      shifted := items;
      for i := 0 to |items|
        invariant |shifted| == |items|
        invariant forall k :: 0 <= k < |items| ==>
                    shifted[k] == if k < i then Shift(items[k], ForInsert(target)) else items[k]
      {
        if shifted[i].live && shifted[i].position >= target {
          shifted := shifted[i := shifted[i].(position := Up(shifted[i].position))];
        }
      }
    }

    static method ShiftedAfterRemove(items: seq<Placed>, removed: nat) returns (shifted: seq<Placed>)
      ensures shifted == Shifted(items, AfterRemove(removed))
    {
      shifted := items;
      for i := 0 to |items|
        invariant |shifted| == |items|
        invariant forall k :: 0 <= k < |items| ==>
                    shifted[k] == if k < i then Shift(items[k], AfterRemove(removed)) else items[k]
      {
        if shifted[i].live && shifted[i].position > removed {
          shifted := shifted[i := shifted[i].(position := shifted[i].position - 1)];
        }
      }
    }

    /** Toward the start, behind the first place; or toward the end, up to before the last. */
    static method ShiftedRange(items: seq<Placed>, start: Position, end: Position, towardStart: bool)
      returns (shifted: seq<Placed>)
      requires start <= end
      ensures shifted == Shifted(items, if towardStart then Between(start, end) else Between(end, start))
    {
      shifted := items;
      for i := 0 to |items|
        invariant |shifted| == |items|
        invariant forall k :: 0 <= k < |items| ==>
                    shifted[k] == if k < i then Shift(items[k], if towardStart then Between(start, end)
                                                                else Between(end, start))
                                  else items[k]
      {
        if shifted[i].live {
          var position := shifted[i].position;
          if towardStart && start < position <= end {
            shifted := shifted[i := shifted[i].(position := position - 1)];
          } else if !towardStart && start <= position < end {
            shifted := shifted[i := shifted[i].(position := position + 1)];
          }
        }
      }
    }

    method ShiftForInsert(target: Position)
      requires Valid()
      modifies this
      ensures Valid() && View() == old(View()).(live := Opened(old(View()).live, target))
      ensures thoughts == Shifted(old(thoughts), ForInsert(target))
      ensures separators == Shifted(old(separators), ForInsert(target))
    {
      OneShift(thoughts, separators, ForInsert(target));
      OpenedIsShifted(View().live, target);
      thoughts := ShiftedForInsert(thoughts, target);
      separators := ShiftedForInsert(separators, target);
    }

    method ShiftAfterRemove(removed: Position)
      requires Valid()
      modifies this
      ensures Valid() && View() == old(View()).(live := Closed(old(View()).live, removed))
    {
      OneShift(thoughts, separators, AfterRemove(removed));
      ClosedIsShifted(View().live, removed);
      thoughts := ShiftedAfterRemove(thoughts, removed);
      separators := ShiftedAfterRemove(separators, removed);
    }

    method ShiftRange(start: Position, end: Position, towardStart: bool)
      requires Valid() && start <= end
      modifies this
      ensures var shift := if towardStart then Between(start, end) else Between(end, start);
              thoughts == Shifted(old(thoughts), shift) && separators == Shifted(old(separators), shift)
    {
      thoughts := ShiftedRange(thoughts, start, end, towardStart);
      separators := ShiftedRange(separators, start, end, towardStart);
    }

    // -------------------------------------------------------------------------------------------
    // Single items

    function ListOf(id: R.Item): seq<Placed>
      reads this
    {
      if id.ThoughtItem? then thoughts else separators
    }

    /** The index of an item in its list, or the list's length. */
    method Find(id: R.Item) returns (i: nat)
      ensures IsAt(id, i)
    {
      i := 0;
      while i < |ListOf(id)| && ListOf(id)[i].id != id
        invariant i <= |ListOf(id)| && forall k :: 0 <= k < i ==> ListOf(id)[k].id != id
      {
        i := i + 1;
      }
    }

    /** An item found is on record; one not found is not. */
    lemma FoundIsRecorded(id: R.Item, i: nat)
      requires Valid() && IsAt(id, i)
      ensures i < |ListOf(id)| ==> var item := ListOf(id)[i];
        && (id in View().live <==> item.live) && (id in View().dead <==> !item.live)
        && (if item.live then View().live[id] else View().dead[id]) == item.position
      ensures i == |ListOf(id)| ==> id !in View().live && id !in View().dead
    {
      var all := thoughts + separators;
      if i < |ListOf(id)| {
        assert all[if id.ThoughtItem? then i else |thoughts| + i] == ListOf(id)[i];
      } else {
        forall k | 0 <= k < |all|
          ensures all[k].id != id
        {
          assert all[k] == if k < |thoughts| then thoughts[k] else separators[k - |thoughts|];
        }
      }
    }

    lemma NotDead(id: R.Item)
      requires Valid() && id in View().live
      ensures View().dead - {id} == View().dead
    {
    }

    /** Puts the item into its list: at its index, or behind the last. */
    method Record(i: nat, item: Placed)
      requires Valid() && i <= |ListOf(item.id)|
      requires if i < |ListOf(item.id)| then ListOf(item.id)[i].id == item.id
               else forall k :: 0 <= k < i ==> ListOf(item.id)[k].id != item.id
      modifies this
      ensures Valid()
      ensures View() == Shelf(PlacesWith(old(View()).live, item, true), PlacesWith(old(View()).dead, item, false))
    {
      RecordReplaces(thoughts, separators, i, item);
      if item.id.ThoughtItem? {
        thoughts := if i < |thoughts| then thoughts[i := item] else thoughts + [item];
      } else {
        separators := if i < |separators| then separators[i := item] else separators + [item];
      }
    }

    predicate IsAt(id: R.Item, i: nat)
      reads this
    {
      && i <= |ListOf(id)| && (forall k :: 0 <= k < i ==> ListOf(id)[k].id != id)
      && (i < |ListOf(id)| ==> ListOf(id)[i].id == id)
    }

    /** Makes room for an item and puts it there. */
    method PutAt(id: R.Item, i: nat, position: Position)
      requires Valid() && IsAt(id, i)
      modifies this
      ensures Valid()
      ensures View() == Shelf(Opened(old(View()).live, position)[id := position], old(View()).dead - {id})
    {
      ShiftForInsert(position);
      Record(i, Placed(id, position, true));
    }

    /** Takes a live item out and closes the gap. */
    method TakeOut(i: nat, item: Placed)
      requires Valid() && i < |ListOf(item.id)| && ListOf(item.id)[i] == item && item.live
      modifies this
      ensures Valid()
      ensures View() == Shelf(Closed(old(View()).live - {item.id}, item.position),
                              old(View()).dead[item.id := item.position])
    {
      Record(i, item.(live := false));
      ShiftAfterRemove(item.position);
    }

    /** Lets the items between step aside and puts the moved one to its new place. */
    method Carry(id: R.Item, i: nat, from: Position, to: Position)
      requires Valid() && IsAt(id, i)
      modifies this
      ensures Valid() && View() == Shelf(Slid(old(View()).live, from, to)[id := to], old(View()).dead - {id})
    {
      StepAside(from, to);
      Record(i, Placed(id, to, true));
    }

    /** How many items are live. */
    method LiveLen() returns (n: nat)
      requires Valid()
      ensures n == |View().live|
    {
      n := 0;
      var all := thoughts + separators;
      assert all[..0] == [];
      for i := 0 to |all|
        invariant DistinctItems(all[..i]) && n == |PlacesOf(all[..i], true)|
      {
        CountOneMore(all, i);
        if all[i].live { n := n + 1; }
      }
      assert all[..|all|] == all;
    }

    // -------------------------------------------------------------------------------------------
    // Mutations

    /** A new item, or a deleted one that is added again, at a position up to behind the last. */
    method AddOrRestore(id: R.Item, position: Position) returns (ok: bool)
      requires Valid()
      modifies this
      ensures Valid() && ok == Added(old(View()), id, position).Some?
      ensures View() == if ok then Added(old(View()), id, position).value else old(View())
    {
      var length := LiveLen();
      if position > length { return false; }
      var i := Find(id);
      FoundIsRecorded(id, i);
      if i < |ListOf(id)| && ListOf(id)[i].live { return false; }
      PutAt(id, i, position);
      ok := true;
    }

    /** Deletes a live item, or restores a deleted one to a position; anything else changes nothing. */
    method SetDeletion(id: R.Item, deleted: bool, position: Position) returns (ok: bool)
      requires Valid()
      modifies this
      ensures Valid() && ok == DeletionSet(old(View()), id, deleted, position).Some?
      ensures View() == if ok then DeletionSet(old(View()), id, deleted, position).value else old(View())
    {
      var i := Find(id);
      FoundIsRecorded(id, i);
      if i == |ListOf(id)| { return false; }
      var item := ListOf(id)[i];
      if item.live && deleted {
        TakeOut(i, item);
      } else if !item.live && !deleted {
        var length := LiveLen();
        if position > length { return false; }
        PutAt(id, i, position);
      }
      ok := true;
    }

    method SetDeletionExact(id: R.Item, expectDeleted: bool, expectPosition: Position, deleted: bool,
                            position: Position)
      returns (ok: bool)
      requires Valid()
      modifies this
      ensures Valid()
      ensures var after := DeletionSetExactly(old(View()), id, expectDeleted, expectPosition, deleted, position);
              ok == after.Some? && View() == if ok then after.value else old(View())
    {
      var i := Find(id);
      FoundIsRecorded(id, i);
      if i == |ListOf(id)| || ListOf(id)[i].live == expectDeleted || ListOf(id)[i].position != expectPosition {
        return false;
      }
      ok := SetDeletion(id, deleted, position);
    }

    /** Moves a live item that stands where it should; the items between step aside. */
    method MoveItem(id: R.Item, from: Position, to: Position) returns (ok: bool)
      requires Valid()
      modifies this
      ensures Valid() && ok == Moved(old(View()), id, from, to).Some?
      ensures View() == if ok then Moved(old(View()), id, from, to).value else old(View())
    {
      var length := LiveLen();
      if from >= length || to >= length { return false; }
      var i := Find(id);
      FoundIsRecorded(id, i);
      if i == |ListOf(id)| || !ListOf(id)[i].live || ListOf(id)[i].position != from { return false; }
      NotDead(id);
      Carry(id, i, from, to);
      ok := true;
    }

    method StepAside(from: Position, to: Position)
      requires Valid()
      modifies this
      ensures Valid() && View() == old(View()).(live := Slid(old(View()).live, from, to))
      ensures thoughts == Shifted(old(thoughts), Between(from, to))
      ensures separators == Shifted(old(separators), Between(from, to))
    {
      OneShift(thoughts, separators, Between(from, to));
      SlidIsShifted(View().live, from, to);
      ShiftBetween(from, to);
    }

    method ShiftBetween(from: Position, to: Position)
      requires Valid()
      modifies this
      ensures thoughts == Shifted(old(thoughts), Between(from, to))
      ensures separators == Shifted(old(separators), Between(from, to))
    {
      if from < to {
        ShiftRange(from, to, true);
      } else if to < from {
        ShiftRange(to, from, false);
      } else {
        NothingBetween(thoughts, from);
        NothingBetween(separators, from);
      }
    }
  }

  // ---------------------------------------------------------------------------------------------
  // The loops and the positions on record

  lemma OpenedIsShifted(live: Places, target: Position)
    ensures ShiftedAll(live, ForInsert(target)) == Opened(live, target)
  {
  }

  lemma ClosedIsShifted(live: Places, removed: Position)
    ensures ShiftedAll(live, AfterRemove(removed)) == Closed(live, removed)
  {
  }

  lemma SlidIsShifted(live: Places, from: Position, to: Position)
    ensures ShiftedAll(live, Between(from, to)) == Slid(live, from, to)
  {
  }

  lemma NothingBetween(items: seq<Placed>, from: Position)
    ensures Shifted(items, Between(from, from)) == items
  {
  }

  /** Both lists shifted alike. */
  lemma OneShift(a: seq<Placed>, b: seq<Placed>, shift: Position -> Position)
    requires DistinctItems(a + b)
    ensures DistinctItems(Shifted(a, shift) + Shifted(b, shift))
    ensures ShelfOf(Shifted(a, shift) + Shifted(b, shift)) ==
            Shelf(ShiftedAll(PlacesOf(a + b, true), shift), PlacesOf(a + b, false))
  {
    ShiftedParts(a, b, shift);
    ShiftedLive(a + b, shift);
    ShiftedDead(a + b, shift);
  }

  lemma RecordReplaces(thoughts: seq<Placed>, separators: seq<Placed>, i: nat, item: Placed)
    requires DistinctItems(thoughts + separators)
    requires forall k :: 0 <= k < |thoughts| ==> thoughts[k].id.ThoughtItem?
    requires forall k :: 0 <= k < |separators| ==> separators[k].id.SeparatorItem?
    requires var list := if item.id.ThoughtItem? then thoughts else separators;
             i <= |list| && if i < |list| then list[i].id == item.id
                            else forall k :: 0 <= k < i ==> list[k].id != item.id
    ensures var a := if item.id.SeparatorItem? then thoughts
                     else if i < |thoughts| then thoughts[i := item] else thoughts + [item];
            var b := if item.id.ThoughtItem? then separators
                     else if i < |separators| then separators[i := item] else separators + [item];
            && DistinctItems(a + b)
            && ShelfOf(a + b) == Shelf(PlacesWith(PlacesOf(thoughts + separators, true), item, true),
                                       PlacesWith(PlacesOf(thoughts + separators, false), item, false))
  {
    var all := thoughts + separators;
    var after;
    if item.id.ThoughtItem? && i < |thoughts| {
      SetReplaces(all, i, item);
      after := all[i := item];
      assert after == thoughts[i := item] + separators;
    } else if item.id.ThoughtItem? {
      PushReplaces(thoughts, separators, item);
      after := thoughts + [item] + separators;
    } else if i < |separators| {
      SetReplaces(all, |thoughts| + i, item);
      after := all[|thoughts| + i := item];
      assert after == thoughts + separators[i := item];
    } else {
      PushReplaces(all, [], item);
      assert all + [] == all;
      after := all + [item] + [];
      assert after == thoughts + (separators + [item]);
    }
    PlacesAfterReplacing(all, after, item, true);
    PlacesAfterReplacing(all, after, item, false);
  }

  lemma CountOneMore(items: seq<Placed>, i: nat)
    requires DistinctItems(items) && i < |items|
    ensures DistinctItems(items[..i]) && DistinctItems(items[..i + 1])
    ensures |PlacesOf(items[..i + 1], true)| == |PlacesOf(items[..i], true)| + if items[i].live then 1 else 0
  {
    assert items[..i] + [items[i]] + [] == items[..i + 1] && items[..i] + [] == items[..i];
    PushReplaces(items[..i], [], items[i]);
    PlacesAfterReplacing(items[..i], items[..i + 1], items[i], true);
    assert items[i].id !in PlacesOf(items[..i], true);
  }

  // ---------------------------------------------------------------------------------------------
  // What validation checks

  /** All live items, each once, sorted by position. */
  ghost predicate SortedLive(items: seq<Placed>, listed: seq<Placed>) {
    && DistinctItems(listed) && (forall item :: item in listed <==> item in items && item.live)
    && (forall i, j :: 0 <= i < j < |listed| ==> listed[i].position <= listed[j].position)
  }

  function Ids(listed: seq<Placed>): seq<R.Item> { seq(|listed|, k requires 0 <= k < |listed| => listed[k].id) }

  /** The sorted items stand on the positions 0, 1, 2 and so on exactly if the positions spell out some order. */
  lemma ValidationSeesTheOrder(items: seq<Placed>, listed: seq<Placed>)
    requires DistinctItems(items) && SortedLive(items, listed)
    ensures (forall k :: 0 <= k < |listed| ==> listed[k].position == k) <==>
            exists order :: Ordered(PlacesOf(items, true), order)
  {
    ListedPlaces(items, listed);
    SortedIds(PlacesOf(items, true), Ids(listed));
    assert forall k :: 0 <= k < |listed| ==> PlacesOf(items, true)[Ids(listed)[k]] == listed[k].position;
  }

  /** The ids of all items placed, in the order of their positions. */
  ghost predicate Sorted(live: Places, ids: seq<R.Item>) {
    && R.Distinct(ids) && (forall i :: 0 <= i < |ids| ==> ids[i] in live) && (forall id :: id in live ==> id in ids)
    && (forall i, j :: 0 <= i < j < |ids| ==> live[ids[i]] <= live[ids[j]])
  }

  lemma ListedPlaces(items: seq<Placed>, listed: seq<Placed>)
    requires DistinctItems(items) && SortedLive(items, listed)
    ensures var live, ids := PlacesOf(items, true), Ids(listed);
            Sorted(live, ids) && forall k :: 0 <= k < |listed| ==> live[ids[k]] == listed[k].position
  {
    var live := PlacesOf(items, true);
    forall k | 0 <= k < |listed|
      ensures listed[k].id in live && live[listed[k].id] == listed[k].position
    {
      assert listed[k] in items;
    }
    forall id | id in live
      ensures id in Ids(listed)
    {
      var i :| 0 <= i < |items| && items[i].live && items[i].id == id;
      assert items[i] in listed;
      var k :| 0 <= k < |listed| && listed[k] == items[i];
      assert Ids(listed)[k] == id;
    }
  }

  lemma SortedIds(live: Places, ids: seq<R.Item>)
    requires Sorted(live, ids)
    ensures (forall k :: 0 <= k < |ids| ==> live[ids[k]] == k) <==> exists order :: Ordered(live, order)
  {
    if forall k :: 0 <= k < |ids| ==> live[ids[k]] == k {
      forall id | id in live
        ensures live[id] < |ids| && ids[live[id]] == id
      {
        assert id in ids;
      }
      assert Ordered(live, ids);
    }
    if order :| Ordered(live, order) {
      NoGap(live, order, ids, |ids|);
    }
  }

  /** The items of an order, sorted by position, stand without a gap. */
  lemma {:induction false} NoGap(live: Places, order: seq<R.Item>, ids: seq<R.Item>, n: nat)
    requires Ordered(live, order) && n <= |ids| && Sorted(live, ids)
    ensures forall k :: 0 <= k < n ==> live[ids[k]] == k
  {
    if n > 0 {
      NoGap(live, order, ids, n - 1);
      NextPlace(live, order, ids, n - 1);
    }
  }

  lemma NextPlace(live: Places, order: seq<R.Item>, ids: seq<R.Item>, k: nat)
    requires Ordered(live, order) && k < |ids| && Sorted(live, ids)
    requires forall i :: 0 <= i < k ==> live[ids[i]] == i
    ensures live[ids[k]] == k
  {
    var p := live[ids[k]];
    assert order[p] == ids[k];
    assert forall i {:trigger order[i]} :: 0 <= i < k ==> live[ids[i]] == i && order[i] == ids[i];
    if k < |order| {
      assert order[k] in ids;
      var j :| 0 <= j < |ids| && ids[j] == order[k];
      assert live[ids[j]] == k;
    }
  }
}
