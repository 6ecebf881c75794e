/** Where the items of a board stand: the laws of their positions. */
module BoardOrder {
  // Every item carries its own position; adding, removing and moving one item shifts the positions of the others. The
  // laws say that the positions always spell out one order, which changes as a list.

  import opened Options
  import R = Reorder

  const MAX_POSITION: nat := 0xFFFF_FFFF

  type Position = p: nat | p <= MAX_POSITION

  type Places = map<R.Item, Position>

  /** The positions of the live items, and the last positions of the deleted ones. */
  datatype Shelf = Shelf(live: Places, dead: Places)

  // ---------------------------------------------------------------------------------------------
  // Shifting

  function Up(position: Position): Position { if position == MAX_POSITION then position else position + 1 }

  /** Room for one more item. */
  function Opened(live: Places, target: nat): Places {
    map id | id in live :: if live[id] >= target then Up(live[id]) else live[id]
  }

  /** The room of a removed item taken up again. */
  function Closed(live: Places, removed: nat): Places {
    map id | id in live :: if live[id] > removed then live[id] - 1 else live[id]
  }

  /** The items between two places step aside for one that moves from the first to the second. */
  function Slid(live: Places, from: Position, to: Position): Places {
    map id | id in live ::
      if from < live[id] <= to then live[id] - 1 else if to <= live[id] < from then live[id] + 1 else live[id]
  }

  // ---------------------------------------------------------------------------------------------
  // Mutations

  /** A new item, or a deleted one that is added again. */
  function Added(s: Shelf, id: R.Item, position: Position): Option<Shelf> {
    if position > |s.live| || id in s.live then None
    else Some(Shelf(Opened(s.live, position)[id := position], s.dead - {id}))
  }

  function Deleted(s: Shelf, id: R.Item): Option<Shelf> {
    if id in s.live then Some(Shelf(Closed(s.live - {id}, s.live[id]), s.dead[id := s.live[id]]))
    else if id in s.dead then Some(s)
    else None
  }

  function Restored(s: Shelf, id: R.Item, position: Position): Option<Shelf> {
    if id in s.live then Some(s)
    else if id !in s.dead || position > |s.live| then None
    else Some(Shelf(Opened(s.live, position)[id := position], s.dead - {id}))
  }

  function DeletionSet(s: Shelf, id: R.Item, deleted: bool, position: Position): Option<Shelf> {
    if deleted then Deleted(s, id) else Restored(s, id, position)
  }

  /** Only if the item is live or deleted, and stands, as expected. */
  function DeletionSetExactly(s: Shelf, id: R.Item, expectDeleted: bool, expectPosition: Position, deleted: bool,
                              position: Position): Option<Shelf>
  {
    var recorded := if expectDeleted then s.dead else s.live;
    if id in recorded && recorded[id] == expectPosition then DeletionSet(s, id, deleted, position) else None
  }

  function Moved(s: Shelf, id: R.Item, from: Position, to: Position): Option<Shelf> {
    if from >= |s.live| || to >= |s.live| || id !in s.live || s.live[id] != from then None
    else Some(s.(live := Slid(s.live, from, to)[id := to]))
  }

  // ---------------------------------------------------------------------------------------------
  // The order

  /** The positions number the list. */
  ghost predicate Ordered(live: Places, order: seq<R.Item>) {
    && (forall k :: 0 <= k < |order| ==> order[k] in live && live[order[k]] == k)
    && (forall id :: id in live ==> live[id] < |order| && order[live[id]] == id)
  }

  lemma OrderIsDistinct(live: Places, order: seq<R.Item>)
    requires Ordered(live, order)
    ensures R.Distinct(order)
  {
  }

  lemma SamePlaces(a: Places, b: Places, order: seq<R.Item>)
    requires Ordered(a, order) && Ordered(b, order)
    ensures a == b
  {
    assert forall id :: id in a ==> order[a[id]] in b && b[id] == a[id];
    assert forall id :: id in b ==> order[b[id]] in a;
  }

  lemma {:induction false} SizeIsLength(live: Places, order: seq<R.Item>)
    requires Ordered(live, order)
    ensures |live| == |order|
    decreases |order|
  {
    if order == [] {
      assert live == map[];
    } else {
      var last := |order| - 1;
      var rest := live - {order[last]};
      assert Ordered(rest, order[..last]);
      SizeIsLength(rest, order[..last]);
      assert live.Keys == rest.Keys + {order[last]};
    }
  }

  lemma OneOrder(live: Places, a: seq<R.Item>, b: seq<R.Item>)
    requires Ordered(live, a) && Ordered(live, b)
    ensures a == b
  {
    SizeIsLength(live, a);
    SizeIsLength(live, b);
    assert forall k :: 0 <= k < |a| ==> b[live[a[k]]] == a[k];
  }

  function Inserted(order: seq<R.Item>, k: nat, id: R.Item): seq<R.Item>
    requires k <= |order|
  {
    order[..k] + [id] + order[k..]
  }

  function Without(order: seq<R.Item>, k: nat): seq<R.Item>
    requires k < |order|
  {
    order[..k] + order[k + 1..]
  }

  /** Opening a gap and putting the item there inserts it into the list, as long as positions last. */
  lemma OpenedInserts(live: Places, order: seq<R.Item>, id: R.Item, k: Position)
    requires Ordered(live, order) && id !in live && k <= |order| <= MAX_POSITION
    ensures Ordered(Opened(live, k)[id := k], Inserted(order, k, id))
  {
  }

  /** Taking the item out and closing the gap removes it from the list. */
  lemma ClosedRemoves(live: Places, order: seq<R.Item>, id: R.Item)
    requires Ordered(live, order) && id in live
    ensures Ordered(Closed(live - {id}, live[id]), Without(order, live[id]))
  {
  }

  /** Sliding the items between moves the item in the list. */
  lemma SlidMoves(live: Places, order: seq<R.Item>, id: R.Item, to: Position)
    requires Ordered(live, order) && id in live && to < |order|
    ensures Ordered(Slid(live, live[id], to)[id := to], R.Moved(order, R.MoveStep(id, live[id], to)))
  {
    var from, after := live[id], R.Moved(order, R.MoveStep(id, live[id], to));
    forall k | 0 <= k < |order|
      ensures after[k] == order[Whence(from, to, k)]
    {
      R.MovedAt(order, R.MoveStep(id, from, to), k);
    }
    SlidTo(live, order, id, to, after);
  }

  /** Where the item at a place stood before the move. */
  function Whence(from: nat, to: nat, k: nat): nat {
    if k == to then from else if from <= k < to then k + 1 else if to < k <= from then k - 1 else k
  }

  lemma SlidTo(live: Places, order: seq<R.Item>, id: R.Item, to: Position, after: seq<R.Item>)
    requires Ordered(live, order) && id in live && to < |order| == |after|
    requires forall k :: 0 <= k < |order| ==> after[k] == order[Whence(live[id], to, k)]
    ensures Ordered(Slid(live, live[id], to)[id := to], after)
  {
    var slid := Slid(live, live[id], to)[id := to];
    forall k | 0 <= k < |after|
      ensures after[k] in slid && slid[after[k]] == k
    {
      var j := Whence(live[id], to, k);
      assert order[j] in live && live[order[j]] == j;
    }
    forall other | other in slid
      ensures slid[other] < |after| && after[slid[other]] == other
    {
      assert Whence(live[id], to, slid[other]) == live[other];
    }
  }

  // ---------------------------------------------------------------------------------------------
  // Every mutation keeps the order a list

  ghost predicate OrderedBy(s: Shelf, order: seq<R.Item>) {
    Ordered(s.live, order) && forall id :: id in s.live ==> id !in s.dead
  }

  /** Adding inserts; it is refused only behind the end and for a live item. */
  lemma AddingInserts(s: Shelf, order: seq<R.Item>, id: R.Item, k: Position)
    requires OrderedBy(s, order) && |order| <= MAX_POSITION
    ensures Added(s, id, k).Some? <==> k <= |order| && id !in s.live
    ensures Added(s, id, k).Some? ==> OrderedBy(Added(s, id, k).value, Inserted(order, k, id))
  {
    SizeIsLength(s.live, order);
    if k <= |order| && id !in s.live { OpenedInserts(s.live, order, id, k); }
  }

  /** Deleting removes; a deleted item stays deleted, with the position it had. */
  lemma DeletingRemoves(s: Shelf, order: seq<R.Item>, id: R.Item)
    requires OrderedBy(s, order)
    ensures Deleted(s, id).Some? <==> id in s.live || id in s.dead
    ensures id in s.live ==> OrderedBy(Deleted(s, id).value, Without(order, s.live[id]))
    ensures id in s.dead ==> Deleted(s, id) == Some(s)
  {
    if id in s.live { ClosedRemoves(s.live, order, id); }
  }

  lemma RestoringInserts(s: Shelf, order: seq<R.Item>, id: R.Item, k: Position)
    requires OrderedBy(s, order) && |order| <= MAX_POSITION
    ensures Restored(s, id, k).Some? <==> id in s.live || (id in s.dead && k <= |order|)
    ensures id in s.live ==> Restored(s, id, k) == Some(s)
    ensures id in s.dead && k <= |order| ==> OrderedBy(Restored(s, id, k).value, Inserted(order, k, id))
  {
    SizeIsLength(s.live, order);
    if id in s.dead && k <= |order| { OpenedInserts(s.live, order, id, k); }
  }

  /** Moving an item is the list's own move, accepted exactly when that one applies. */
  lemma MovingMoves(s: Shelf, order: seq<R.Item>, id: R.Item, from: Position, to: Position)
    requires OrderedBy(s, order)
    ensures Moved(s, id, from, to).Some? <==> R.Applies(order, R.MoveStep(id, from, to))
    ensures Moved(s, id, from, to).Some? ==>
      OrderedBy(Moved(s, id, from, to).value, R.Moved(order, R.MoveStep(id, from, to)))
  {
    SizeIsLength(s.live, order);
    if Moved(s, id, from, to).Some? { SlidMoves(s.live, order, id, to); }
  }

  /** There are no more positions. */
  lemma OrdersAreShort(live: Places, order: seq<R.Item>)
    requires Ordered(live, order)
    ensures |order| <= MAX_POSITION + 1
  {
    if order != [] { assert live[order[|order| - 1]] == |order| - 1; }
  }

  /** Only a board with an item on every position there is cannot take one more: its positions saturate. */
  lemma FullBoardSaturates(s: Shelf, order: seq<R.Item>, id: R.Item, k: Position, after: seq<R.Item>)
    requires OrderedBy(s, order) && |order| > MAX_POSITION && Added(s, id, k).Some?
    ensures !Ordered(Added(s, id, k).value.live, after)
  {
    var live := Added(s, id, k).value.live;
    SizeIsLength(s.live, order);
    assert live.Keys == s.live.Keys + {id};
    if Ordered(live, after) {
      SizeIsLength(live, after);
      OrdersAreShort(live, after);
    }
  }

  // ---------------------------------------------------------------------------------------------
  // One mutation undone

  lemma InsertedWithout(order: seq<R.Item>, k: nat, id: R.Item)
    ensures k < |order| && order[k] == id ==> Inserted(Without(order, k), k, id) == order
    ensures k <= |order| ==> Without(Inserted(order, k, id), k) == order
  {
  }

  lemma RestoringUndoesDeleting(s: Shelf, order: seq<R.Item>, id: R.Item)
    requires OrderedBy(s, order) && id in s.live
    ensures Restored(Deleted(s, id).value, id, s.live[id]) == Some(s)
  {
    var k, gone := s.live[id], Deleted(s, id).value;
    OrdersAreShort(s.live, order);
    DeletingRemoves(s, order, id);
    RestoringInserts(gone, Without(order, k), id, k);
    InsertedWithout(order, k, id);
    SamePlaces(Restored(gone, id, k).value.live, s.live, order);
    NoLongerDead(s.dead, id, k);
  }

  lemma NoLongerDead(dead: Places, id: R.Item, k: Position)
    requires id !in dead
    ensures dead[id := k] - {id} == dead
  {
  }

  lemma DeletingUndoesAdding(s: Shelf, order: seq<R.Item>, id: R.Item, k: Position)
    requires OrderedBy(s, order) && |order| <= MAX_POSITION && Added(s, id, k).Some?
    ensures id in Added(s, id, k).value.live && Added(s, id, k).value.live[id] == k
    ensures Deleted(Added(s, id, k).value, id).value.live == s.live
  {
    var added := Added(s, id, k).value;
    AddingInserts(s, order, id, k);
    DeletingRemoves(added, Inserted(order, k, id), id);
    InsertedWithout(order, k, id);
    SamePlaces(Deleted(added, id).value.live, s.live, order);
  }

  // ---------------------------------------------------------------------------------------------
  // Batches

  /** One deletion or restoration of a batch, with the position on record when the batch was planned. */
  function BatchStep(s: Shelf, id: R.Item, places: Places, deleted: bool, exact: bool): Option<Shelf> {
    if id !in places then None
    else if exact then DeletionSetExactly(s, id, !deleted, places[id], deleted, places[id])
    else DeletionSet(s, id, deleted, places[id])
  }

  /** The last one first. */
  function AllDeleted(s: Shelf, ids: seq<R.Item>, places: Places, exact: bool): Option<Shelf>
    decreases |ids|
  {
    if ids == [] then Some(s)
    else
      var next := BatchStep(s, ids[|ids| - 1], places, true, exact);
      if next.None? then None else AllDeleted(next.value, ids[..|ids| - 1], places, exact)
  }

  /** The first one first. */
  function AllRestored(s: Shelf, ids: seq<R.Item>, places: Places, exact: bool): Option<Shelf> {
    if ids == [] then Some(s)
    else
      var before := AllRestored(s, ids[..|ids| - 1], places, exact);
      if before.None? then None else BatchStep(before.value, ids[|ids| - 1], places, false, exact)
  }

  /** New items on successive positions, the first one first. */
  function AllAdded(s: Shelf, ids: seq<R.Item>, at: nat): Option<Shelf> {
    if ids == [] then Some(s)
    else
      var before := AllAdded(s, ids[..|ids| - 1], at);
      if before.None? || at + |ids| - 1 > MAX_POSITION then None
      else Added(before.value, ids[|ids| - 1], at + |ids| - 1)
  }

  /** The ids stand in this order, where `places` says. */
  ghost predicate Listed(live: Places, ids: seq<R.Item>, places: Places) {
    && (forall i :: 0 <= i < |ids| ==> ids[i] in live && ids[i] in places && places[ids[i]] == live[ids[i]])
    && (forall i, j :: 0 <= i < j < |ids| ==> live[ids[i]] < live[ids[j]])
  }

  function SetOf(ids: seq<R.Item>): set<R.Item> { set id | id in ids }

  /** Selected items come in the board's order. */
  lemma {:induction false} SelectionIsListed(live: Places, order: seq<R.Item>, selected: set<R.Item>, from: nat)
    requires Ordered(live, order) && from <= |order|
    ensures var ids := R.Part(order[from..], selected, true);
            Listed(live, ids, live) && forall i :: 0 <= i < |ids| ==> live[ids[i]] >= from && ids[i] in selected
    decreases |order| - from
  {
    if from < |order| {
      SelectionIsListed(live, order, selected, from + 1);
      assert order[from..][1..] == order[from + 1..] && live[order[from]] == from;
    }
  }

  lemma {:induction false} PartWithout(order: seq<R.Item>, others: set<R.Item>, id: R.Item)
    requires id !in order
    ensures R.Part(order, others + {id}, false) == R.Part(order, others, false)
  {
    if order != [] { PartWithout(order[1..], others, id); }
  }

  /** Leaving out one more item. */
  lemma PartLeaves(order: seq<R.Item>, k: nat, others: set<R.Item>)
    requires k < |order| && R.Distinct(order) && order[k] !in others
    ensures R.Part(order, others + {order[k]}, false) == R.Part(Without(order, k), others, false)
  {
    assert order == order[..k] + ([order[k]] + order[k + 1..]);
    PartLeavesOne(order[..k], order[k], order[k + 1..], others);
  }

  lemma PartLeavesOne(a: seq<R.Item>, id: R.Item, b: seq<R.Item>, others: set<R.Item>)
    requires id !in a && id !in b
    ensures R.Part(a + ([id] + b), others + {id}, false) == R.Part(a + b, others, false)
  {
    R.PartsAppend(a, [id] + b, others + {id}, false);
    R.PartCons(id, b, others + {id}, false);
    PartWithout(a, others, id);
    PartWithout(b, others, id);
    R.PartsAppend(a, b, others, false);
  }

  lemma BeforeLast(s: Shelf, order: seq<R.Item>, ids: seq<R.Item>, places: Places)
    requires OrderedBy(s, order) && ids != [] && Listed(s.live, ids, places)
    ensures var last := ids[|ids| - 1];
            && Listed(Deleted(s, last).value.live, ids[..|ids| - 1], places) && last !in ids[..|ids| - 1]
  {
  }

  lemma LastSelected(ids: seq<R.Item>)
    requires ids != []
    ensures SetOf(ids) == SetOf(ids[..|ids| - 1]) + {ids[|ids| - 1]}
  {
    assert ids == ids[..|ids| - 1] + [ids[|ids| - 1]];
  }

  /**
   * Deleting a selection, the last item first, is accepted and leaves the other items in order; and restoring it, the
   * first item first, with the positions recorded before, brings everything back to where it was.
   */
  lemma {:induction false} DeletedComeBack(s: Shelf, order: seq<R.Item>, ids: seq<R.Item>, places: Places, exact: bool)
    requires OrderedBy(s, order) && Listed(s.live, ids, places)
    ensures AllDeleted(s, ids, places, exact).Some?
    ensures var t := AllDeleted(s, ids, places, exact).value;
            && OrderedBy(t, R.Part(order, SetOf(ids), false))
            && AllRestored(t, ids, places, exact) == Some(s)
    decreases |ids|
  {
    if ids == [] {
      NothingSelected(order);
    } else {
      var last := ids[|ids| - 1];
      var next := Deleted(s, last).value;
      DeletingRemoves(s, order, last);
      BeforeLast(s, order, ids, places);
      DeletedComeBack(next, Without(order, s.live[last]), ids[..|ids| - 1], places, exact);
      LastSelected(ids);
      OrderIsDistinct(s.live, order);
      PartLeaves(order, s.live[last], SetOf(ids[..|ids| - 1]));
      RestoringUndoesDeleting(s, order, last);
    }
  }

  lemma {:induction false} NothingSelected(order: seq<R.Item>)
    ensures R.Part(order, SetOf([]), false) == order
  {
    if order != [] {
      NothingSelected(order[1..]);
      assert order == [order[0]] + order[1..];
    }
  }

  predicate Fresh(live: Places, ids: seq<R.Item>) {
    R.Distinct(ids) && forall i :: 0 <= i < |ids| ==> ids[i] !in live
  }

  /** The items inserted one after the other, from a place on. */
  function Block(order: seq<R.Item>, ids: seq<R.Item>, at: nat): (r: seq<R.Item>)
    requires at <= |order|
    ensures |r| == |order| + |ids|
  {
    if ids == [] then order
    else Inserted(Block(order, ids[..|ids| - 1], at), at + |ids| - 1, ids[|ids| - 1])
  }

  /** They stand together. */
  lemma {:induction false} BlockIsTogether(order: seq<R.Item>, ids: seq<R.Item>, at: nat)
    requires at <= |order|
    ensures Block(order, ids, at) == order[..at] + ids + order[at..]
    decreases |ids|
  {
    if ids != [] { BlockIsTogether(order, ids[..|ids| - 1], at); }
  }

  lemma OneMoreFresh(live: Places, ids: seq<R.Item>)
    requires ids != []
    ensures var before, last := ids[..|ids| - 1], ids[|ids| - 1];
            Fresh(live, ids) <==> Fresh(live, before) && last !in live && last !in before
  {
    assert ids == ids[..|ids| - 1] + [ids[|ids| - 1]];
  }

  /** The items of `live` and these. */
  ghost predicate Joined(live: Places, ids: seq<R.Item>, after: Places) {
    forall id :: id in after <==> id in live || id in ids
  }

  /** What one more item does to a shelf with the first ones. */
  lemma OneMoreJoined(live: Places, ids: seq<R.Item>, b: Shelf, order: seq<R.Item>, k: Position)
    requires ids != [] && Joined(live, ids[..|ids| - 1], b.live) && Ordered(b.live, order) && k <= |order|
    ensures var last := ids[|ids| - 1];
            && (Added(b, last, k).Some? <==> last !in live && last !in ids[..|ids| - 1])
            && (Added(b, last, k).Some? ==> Joined(live, ids, Added(b, last, k).value.live))
  {
    SizeIsLength(b.live, order);
    assert ids == ids[..|ids| - 1] + [ids[|ids| - 1]];
  }

  lemma OneMoreOrdered(b: Shelf, before: seq<R.Item>, after: seq<R.Item>, id: R.Item, k: Position)
    requires OrderedBy(b, before) && |before| <= MAX_POSITION && k <= |before| && after == Inserted(before, k, id)
    ensures Added(b, id, k).Some? ==> OrderedBy(Added(b, id, k).value, after)
  {
    AddingInserts(b, before, id, k);
  }

  /** New items stand together, in order. */
  lemma {:induction false} AddedStandTogether(s: Shelf, order: seq<R.Item>, ids: seq<R.Item>, at: nat)
    requires OrderedBy(s, order) && at <= |order| && |order| + |ids| <= MAX_POSITION + 1
    requires AllAdded(s, ids, at).Some?
    ensures OrderedBy(AllAdded(s, ids, at).value, Block(order, ids, at))
    decreases |ids|
  {
    if ids != [] {
      var before, last := ids[..|ids| - 1], ids[|ids| - 1];
      AddedStandTogether(s, order, before, at);
      OneMoreOrdered(AllAdded(s, before, at).value, Block(order, before, at), Block(order, ids, at), last,
                     at + |before|);
    }
  }

  /** They are refused exactly if one of them is there already or comes twice. */
  lemma {:induction false} FreshAreAdded(s: Shelf, order: seq<R.Item>, ids: seq<R.Item>, at: nat)
    requires OrderedBy(s, order) && at <= |order| && |order| + |ids| <= MAX_POSITION + 1
    ensures AllAdded(s, ids, at).Some? <==> Fresh(s.live, ids)
    ensures AllAdded(s, ids, at).Some? ==> Joined(s.live, ids, AllAdded(s, ids, at).value.live)
    decreases |ids|
  {
    if ids != [] {
      var before, last := ids[..|ids| - 1], ids[|ids| - 1];
      FreshAreAdded(s, order, before, at);
      OneMoreFresh(s.live, ids);
      if AllAdded(s, before, at).Some? {
        AddedStandTogether(s, order, before, at);
        OneMoreJoined(s.live, ids, AllAdded(s, before, at).value, Block(order, before, at), at + |before|);
      }
    }
  }

  lemma StepDeletes(s: Shelf, t: Shelf, id: R.Item, places: Places, exact: bool)
    requires id in s.live && id in places && places[id] == s.live[id] && t.live == s.live
    ensures BatchStep(t, id, places, true, exact) == Deleted(t, id)
    ensures Deleted(t, id).Some? && Deleted(t, id).value.live == Deleted(s, id).value.live
  {
  }

  lemma LastAdded(s: Shelf, ids: seq<R.Item>, at: nat)
    requires ids != [] && AllAdded(s, ids, at).Some?
    ensures AllAdded(s, ids[..|ids| - 1], at).Some? && at + |ids| - 1 <= MAX_POSITION
    ensures Added(AllAdded(s, ids[..|ids| - 1], at).value, ids[|ids| - 1], at + |ids| - 1) == AllAdded(s, ids, at)
  {
  }

  /** Deleting what was added, the last one first, puts everything else back. */
  lemma {:induction false} AddedGoAway(s: Shelf, order: seq<R.Item>, ids: seq<R.Item>, at: nat, t: Shelf,
                                       places: Places, exact: bool)
    requires OrderedBy(s, order) && at <= |order| && |order| + |ids| <= MAX_POSITION + 1
    requires AllAdded(s, ids, at).Some? && t.live == AllAdded(s, ids, at).value.live
    requires forall i :: 0 <= i < |ids| ==> ids[i] in places && places[ids[i]] == at + i
    ensures AllDeleted(t, ids, places, exact).Some? && AllDeleted(t, ids, places, exact).value.live == s.live
    decreases |ids|
  {
    if ids != [] {
      LastAdded(s, ids, at);
      var before := ids[..|ids| - 1];
      AddedStandTogether(s, order, before, at);
      var earlier := AllAdded(s, before, at).value;
      var next := FirstDeleted(earlier, Block(order, before, at), ids, at + |before|, t, places, exact);
      AddedGoAway(s, order, before, at, next, places, exact);
    }
  }

  lemma FirstDeleted(s: Shelf, order: seq<R.Item>, ids: seq<R.Item>, k: Position, t: Shelf, places: Places, exact: bool)
    returns (next: Shelf)
    requires OrderedBy(s, order) && |order| <= MAX_POSITION && ids != [] && Added(s, ids[|ids| - 1], k).Some?
    requires t.live == Added(s, ids[|ids| - 1], k).value.live
    requires ids[|ids| - 1] in places && places[ids[|ids| - 1]] == k
    ensures next.live == s.live
    ensures AllDeleted(t, ids, places, exact) == AllDeleted(next, ids[..|ids| - 1], places, exact)
  {
    LastGoesAway(s, order, ids[|ids| - 1], k, t, places, exact);
    next := BatchStep(t, ids[|ids| - 1], places, true, exact).value;
  }

  lemma LastGoesAway(s: Shelf, order: seq<R.Item>, id: R.Item, k: Position, t: Shelf, places: Places, exact: bool)
    requires OrderedBy(s, order) && |order| <= MAX_POSITION && Added(s, id, k).Some?
    requires t.live == Added(s, id, k).value.live && id in places && places[id] == k
    ensures BatchStep(t, id, places, true, exact).Some?
    ensures BatchStep(t, id, places, true, exact).value.live == s.live
  {
    DeletingUndoesAdding(s, order, id, k);
    StepDeletes(Added(s, id, k).value, t, id, places, exact);
  }

  // ---------------------------------------------------------------------------------------------
  // Moves

  function AllMoved(s: Shelf, steps: seq<R.MoveStep>): Option<Shelf>
    decreases |steps|
  {
    if steps == [] then Some(s)
    else if steps[0].from > MAX_POSITION || steps[0].to > MAX_POSITION then None
    else
      var next := Moved(s, steps[0].item, steps[0].from, steps[0].to);
      if next.None? then None else AllMoved(next.value, steps[1..])
  }

  /** Carried out on positions, a list of steps does what it does to the list. */
  lemma {:induction false} MovesFollowTheList(s: Shelf, order: seq<R.Item>, steps: seq<R.MoveStep>)
    requires OrderedBy(s, order)
    ensures AllMoved(s, steps).Some? <==> R.After(order, steps).Ok?
    ensures AllMoved(s, steps).Some? ==>
      OrderedBy(AllMoved(s, steps).value, R.After(order, steps).value) && AllMoved(s, steps).value.dead == s.dead
    decreases |steps|
  {
    if steps != [] {
      OrdersAreShort(s.live, order);
      if steps[0].from <= MAX_POSITION && steps[0].to <= MAX_POSITION {
        MovingMoves(s, order, steps[0].item, steps[0].from, steps[0].to);
        if R.Applies(order, steps[0]) {
          MovesFollowTheList(Moved(s, steps[0].item, steps[0].from, steps[0].to).value, R.Moved(order, steps[0]),
                             steps[1..]);
        }
      }
    }
  }

  /** The recorded inverse puts every item back on its position. */
  lemma MovesComeBack(s: Shelf, order: seq<R.Item>, steps: seq<R.MoveStep>)
    requires OrderedBy(s, order) && AllMoved(s, steps).Some?
    ensures AllMoved(AllMoved(s, steps).value, R.InverseSteps(steps)) == Some(s)
  {
    MovesFollowTheList(s, order, steps);
    R.UndoRestores(order, steps);
    MovesFollowTheList(AllMoved(s, steps).value, R.After(order, steps).value, R.InverseSteps(steps));
    SamePlaces(AllMoved(AllMoved(s, steps).value, R.InverseSteps(steps)).value.live, s.live, order);
  }

  /** A selection moved up: the positions spell the raised order. */
  lemma SelectionMovesUp(s: Shelf, order: seq<R.Item>, selected: set<R.Item>)
    requires OrderedBy(s, order)
    ensures R.WithinOrder(order, R.RunsFrom(order, selected, 0))
    ensures var t := AllMoved(s, R.UpSteps(order, R.RunsFrom(order, selected, 0)));
            t.Some? && OrderedBy(t.value, R.Raised(order, selected))
  {
    R.UpStepsRaise(order, selected);
    MovesFollowTheList(s, order, R.UpSteps(order, R.RunsFrom(order, selected, 0)));
  }

  // ---------------------------------------------------------------------------------------------
  // An export: a reference takes the place of its sources

  lemma {:induction false} PartOfOthers(order: seq<R.Item>, selected: set<R.Item>)
    ensures |R.Part(order, selected, false)| <= |order|
    ensures (forall i :: 0 <= i < |order| ==> order[i] !in selected) ==> R.Part(order, selected, false) == order
    decreases |order|
  {
    if order != [] {
      PartOfOthers(order[1..], selected);
      assert order == [order[0]] + order[1..];
    }
  }

  /** Everything before the first selected item stays in front. */
  lemma BeforeFirst(order: seq<R.Item>, selected: set<R.Item>, k: nat)
    requires k < |order| && order[k] in selected && forall i :: 0 <= i < k ==> order[i] !in selected
    ensures k <= |R.Part(order, selected, false)| < |order|
  {
    var a, b := order[..k], order[k + 1..];
    assert order == a + ([order[k]] + b);
    R.PartsAppend(a, [order[k]] + b, selected, false);
    R.PartCons(order[k], b, selected, false);
    PartOfOthers(a, selected);
    PartOfOthers(b, selected);
  }

  lemma FirstIsForemost(s: Shelf, order: seq<R.Item>, ids: seq<R.Item>, places: Places)
    requires OrderedBy(s, order) && ids != [] && Listed(s.live, ids, places)
    ensures s.live[ids[0]] <= |R.Part(order, SetOf(ids), false)| <= MAX_POSITION
  {
    var k := s.live[ids[0]];
    forall i | 0 <= i < k
      ensures order[i] !in SetOf(ids)
    {
      assert forall j :: 0 <= j < |ids| ==> s.live[ids[0]] <= s.live[ids[j]];
      assert s.live[order[i]] == i;
    }
    BeforeFirst(order, SetOf(ids), k);
    OrdersAreShort(s.live, order);
  }

  /** The sources go and the reference stands where the first of them stood. */
  lemma ReferenceTakesTheirPlace(s: Shelf, order: seq<R.Item>, ids: seq<R.Item>, places: Places, reference: R.Item)
    requires OrderedBy(s, order) && ids != [] && Listed(s.live, ids, places) && reference !in s.live
    ensures AllDeleted(s, ids, places, true).Some?
    ensures var t, k := AllDeleted(s, ids, places, true).value, s.live[ids[0]];
            && Added(t, reference, k).Some? && k <= |R.Part(order, SetOf(ids), false)|
            && OrderedBy(Added(t, reference, k).value, Inserted(R.Part(order, SetOf(ids), false), k, reference))
  {
    DeletedComeBack(s, order, ids, places, true);
    FirstIsForemost(s, order, ids, places);
    PartIsPart(order, SetOf(ids), reference);
    AddingInserts(AllDeleted(s, ids, places, true).value, R.Part(order, SetOf(ids), false), reference, s.live[ids[0]]);
  }

  lemma {:induction false} PartIsPart(order: seq<R.Item>, selected: set<R.Item>, id: R.Item)
    ensures id in R.Part(order, selected, false) ==> id in order
  {
    if order != [] { PartIsPart(order[1..], selected, id); }
  }

  /** A further deleted item does not matter. */
  lemma {:induction false} RestoredBesides(s: Shelf, ids: seq<R.Item>, places: Places, exact: bool, other: R.Item,
                                           k: Position)
    requires other !in ids && other !in s.live && AllRestored(s, ids, places, exact).Some?
    ensures var t := AllRestored(s, ids, places, exact).value;
            && other !in t.live
            && AllRestored(s.(dead := s.dead[other := k]), ids, places, exact) == Some(t.(dead := t.dead[other := k]))
    decreases |ids|
  {
    if ids != [] {
      RestoredBesides(s, ids[..|ids| - 1], places, exact, other, k);
      var before := AllRestored(s, ids[..|ids| - 1], places, exact).value;
      OneRestoredBesides(before, ids[|ids| - 1], places, exact, other, k);
    }
  }

  lemma OneRestoredBesides(s: Shelf, id: R.Item, places: Places, exact: bool, other: R.Item, k: Position)
    requires other != id && other !in s.live && BatchStep(s, id, places, false, exact).Some?
    ensures var t := BatchStep(s, id, places, false, exact).value;
            && other !in t.live
            && BatchStep(s.(dead := s.dead[other := k]), id, places, false, exact) ==
               Some(t.(dead := t.dead[other := k]))
  {
    WithoutBesides(s.dead, id, other, k);
  }

  lemma WithoutBesides(dead: Places, id: R.Item, other: R.Item, k: Position)
    requires other != id
    ensures (dead - {id})[other := k] == dead[other := k] - {id}
  {
  }

  lemma ReferenceGoes(t: Shelf, order: seq<R.Item>, reference: R.Item, k: Position)
    requires OrderedBy(t, order) && |order| <= MAX_POSITION && Added(t, reference, k).Some? && reference !in t.dead
    ensures BatchStep(Added(t, reference, k).value, reference, map[reference := k], true, true)
            == Some(t.(dead := t.dead[reference := k]))
  {
    var added := Added(t, reference, k).value;
    DeletingUndoesAdding(t, order, reference, k);
    StepDeletes(added, added, reference, map[reference := k], true);
    assert t.dead - {reference} == t.dead;
  }

  /** Undone, the reference goes and every source is back where it was. */
  lemma SourcesTakeTheirPlaces(s: Shelf, order: seq<R.Item>, ids: seq<R.Item>, places: Places, reference: R.Item)
    requires OrderedBy(s, order) && ids != [] && Listed(s.live, ids, places)
    requires reference !in s.live && reference !in s.dead
    ensures AllDeleted(s, ids, places, true).Some?
    ensures var t, k := AllDeleted(s, ids, places, true).value, s.live[ids[0]];
            && Added(t, reference, k).Some?
            && var u := BatchStep(Added(t, reference, k).value, reference, map[reference := k], true, true);
               && u.Some? && AllRestored(u.value, ids, places, true) == Some(s.(dead := s.dead[reference := k]))
  {
    ReferenceTakesTheirPlace(s, order, ids, places, reference);
    DeletedComeBack(s, order, ids, places, true);
    var t, k := AllDeleted(s, ids, places, true).value, s.live[ids[0]];
    FirstIsForemost(s, order, ids, places);
    DeletedAreKnown(s, ids, places, reference);
    ReferenceGoes(t, R.Part(order, SetOf(ids), false), reference, k);
    RestoredBesides(t, ids, places, true, reference, k);
  }

  lemma {:induction false} DeletedAreKnown(s: Shelf, ids: seq<R.Item>, places: Places, id: R.Item)
    requires AllDeleted(s, ids, places, true).Some? && id !in s.live && id !in s.dead
    ensures var t := AllDeleted(s, ids, places, true).value; id !in t.live && id !in t.dead && id !in ids
    decreases |ids|
  {
    if ids != [] {
      var last := ids[|ids| - 1];
      DeletedAreKnown(BatchStep(s, last, places, true, true).value, ids[..|ids| - 1], places, id);
      assert ids == ids[..|ids| - 1] + [last];
    }
  }
}
