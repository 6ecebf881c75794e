/** Moving a selection of board items one place up or down (src/application/reorder.rs). */
module Reorder {
  // The code splits the selection into runs of neighbours and moves, for each run, the one unselected neighbour to the
  // other side of the run. Here the whole move is specified without runs and indices: an unselected item trades places
  // with every selected item that follows it directly.

  datatype Item = ThoughtItem(thought: nat) | SeparatorItem(separator: nat)

  datatype MoveStep = MoveStep(item: Item, from: nat, to: nat)

  datatype Result<+T> = Ok(value: T) | InvalidState

  predicate Distinct(order: seq<Item>) { forall i, j :: 0 <= i < j < |order| ==> order[i] != order[j] }

  /** The items of a list that are, or are not, in the selection, in order. */
  function Part(order: seq<Item>, selected: set<Item>, chosen: bool): seq<Item> {
    if order == [] then []
    else (if (order[0] in selected) == chosen then [order[0]] else []) + Part(order[1..], selected, chosen)
  }

  /** Which places of a list hold selected items. */
  function Mask(order: seq<Item>, selected: set<Item>): seq<bool> {
    seq(|order|, i requires 0 <= i < |order| => order[i] in selected)
  }

  // ---------------------------------------------------------------------------------------------
  // The move, specified

  /** Every unselected item sinks behind the selected run that follows it. */
  function Raised(order: seq<Item>, selected: set<Item>): (r: seq<Item>)
    ensures |r| == |order|
    decreases |order|
  {
    if |order| < 2 then order
    else if order[0] !in selected && order[1] in selected then
      [order[1]] + Raised([order[0]] + order[2..], selected)
    else [order[0]] + Raised(order[1..], selected)
  }

  function Reversed(order: seq<Item>): (r: seq<Item>)
    ensures |r| == |order|
    ensures forall i :: 0 <= i < |order| ==> r[i] == order[|order| - 1 - i]
  {
    seq(|order|, i requires 0 <= i < |order| => order[|order| - 1 - i])
  }

  /** The same move seen from the other end. */
  function Lowered(order: seq<Item>, selected: set<Item>): (r: seq<Item>)
    ensures |r| == |order|
  {
    Reversed(Raised(Reversed(order), selected))
  }

  // ---------------------------------------------------------------------------------------------
  // Steps applied one after another

  /** The step names an item that really stands at its starting place. */
  predicate Applies(order: seq<Item>, step: MoveStep) {
    step.from < |order| && step.to < |order| && order[step.from] == step.item
  }

  /** Take the item out and put it back so that it stands at the target place. */
  function Moved(order: seq<Item>, step: MoveStep): (r: seq<Item>)
    requires Applies(order, step)
    ensures |r| == |order|
  {
    if step.from <= step.to
    then order[..step.from] + order[step.from + 1..step.to + 1] + [step.item] + order[step.to + 1..]
    else order[..step.to] + [step.item] + order[step.to..step.from] + order[step.from + 1..]
  }

  /** All steps, each applied to what the one before it left; nothing if one names an item that is not there. */
  function After(order: seq<Item>, steps: seq<MoveStep>): Result<seq<Item>>
    decreases |steps|
  {
    if steps == [] then Ok(order)
    else if Applies(order, steps[0]) then After(Moved(order, steps[0]), steps[1..])
    else InvalidState
  }

  // ---------------------------------------------------------------------------------------------
  // What the move means

  lemma PartCons(head: Item, rest: seq<Item>, selected: set<Item>, chosen: bool)
    ensures Part([head] + rest, selected, chosen) ==
            (if (head in selected) == chosen then [head] else []) + Part(rest, selected, chosen)
  {
    assert ([head] + rest)[1..] == rest;
  }

  lemma NeighboursOfDifferentParts(a: Item, b: Item, rest: seq<Item>, selected: set<Item>, chosen: bool)
    requires a !in selected && b in selected
    ensures (if chosen then [b] else []) + Part([a] + rest, selected, chosen) ==
            Part([a] + ([b] + rest), selected, chosen)
  {
    PartCons(a, rest, selected, chosen);
    PartCons(b, rest, selected, chosen);
    PartCons(a, [b] + rest, selected, chosen);
    if chosen {
      assert [] + Part(rest, selected, chosen) == Part(rest, selected, chosen);
    } else {
      assert [] + Part([a] + rest, selected, chosen) == Part([a] + rest, selected, chosen);
    }
  }

  /** Selected items keep their order among themselves, and so do unselected ones. */
  lemma {:induction false} RaisedKeepsRelativeOrder(order: seq<Item>, selected: set<Item>, chosen: bool)
    ensures Part(Raised(order, selected), selected, chosen) == Part(order, selected, chosen)
    decreases |order|
  {
    if |order| >= 2 {
      if order[0] !in selected && order[1] in selected {
        RaisedKeepsRelativeOrder([order[0]] + order[2..], selected, chosen);
        PartCons(order[1], Raised([order[0]] + order[2..], selected), selected, chosen);
        NeighboursOfDifferentParts(order[0], order[1], order[2..], selected, chosen);
        assert order == [order[0]] + ([order[1]] + order[2..]);
      } else {
        RaisedKeepsRelativeOrder(order[1..], selected, chosen);
        PartCons(order[0], Raised(order[1..], selected), selected, chosen);
      }
    }
  }

  lemma MultisetCons(head: Item, rest: seq<Item>)
    ensures multiset([head] + rest) == multiset{head} + multiset(rest)
  {
  }

  lemma {:induction false} RaisedPermutes(order: seq<Item>, selected: set<Item>)
    ensures multiset(Raised(order, selected)) == multiset(order)
    decreases |order|
  {
    if |order| >= 2 {
      var a, b, rest := order[0], order[1], order[2..];
      assert order == [a] + ([b] + rest);
      MultisetCons(a, [b] + rest);
      if a !in selected && b in selected {
        MultisetCons(b, rest);
        MultisetCons(a, rest);
        RaisedPermutes([a] + rest, selected);
        MultisetCons(b, Raised([a] + rest, selected));
      } else {
        assert order[1..] == [b] + rest;
        RaisedPermutes(order[1..], selected);
        MultisetCons(a, Raised(order[1..], selected));
      }
    }
  }

  predicate AllSelected(order: seq<Item>, selected: set<Item>) {
    forall i :: 0 <= i < |order| ==> order[i] in selected
  }

  lemma AllSelectedTail(order: seq<Item>, selected: set<Item>, i: nat)
    requires 0 < i <= |order|
    ensures AllSelected(order[..i], selected) <==> order[0] in selected && AllSelected(order[1..][..i - 1], selected)
  {
    var tail := order[1..][..i - 1];
    assert forall k :: 0 <= k < i - 1 ==> tail[k] == order[..i][k + 1];
    if order[0] in selected && AllSelected(tail, selected) {
      forall k | 0 <= k < i
        ensures order[..i][k] in selected
      {
        assert k > 0 ==> order[..i][k] == tail[k - 1];
      }
    }
  }

  /** A selected item moves up by exactly one place, unless its run already stands at the top. */
  lemma {:induction false} RaisedMovesByOne(order: seq<Item>, selected: set<Item>, i: nat)
    requires i < |order| && order[i] in selected
    ensures if AllSelected(order[..i], selected) then Raised(order, selected)[i] == order[i]
            else i > 0 && Raised(order, selected)[i - 1] == order[i]
    decreases |order|
  {
    if |order| >= 2 {
      if order[0] !in selected && order[1] in selected {
        if i > 1 {
          var swapped := [order[0]] + order[2..];
          RaisedMovesByOne(swapped, selected, i - 1);
          assert swapped[..i - 1][0] == order[0] && order[..i][0] == order[0];
        } else {
          assert order[..1][0] == order[0];
        }
      } else if i > 0 {
        RaisedMovesByOne(order[1..], selected, i - 1);
        AllSelectedTail(order, selected, i);
      }
    }
  }

  // ---------------------------------------------------------------------------------------------
  // Up and down again

  lemma {:induction false} MaskOfRaised(order: seq<Item>, selected: set<Item>)
    requires order != [] && order[0] !in selected
    ensures Mask(Raised(order, selected), selected) == Mask(order, selected)[1..] + [false]
    decreases |order|
  {
    if |order| >= 2 {
      if order[1] in selected {
        var swapped := [order[0]] + order[2..];
        MaskOfRaised(swapped, selected);
        assert Mask(swapped, selected)[1..] == Mask(order, selected)[2..];
        assert Mask(order, selected)[1..] == [true] + Mask(order, selected)[2..];
        MaskCons(order[1], Raised(swapped, selected), selected);
      } else {
        MaskOfRaised(order[1..], selected);
        assert Mask(order[1..], selected)[1..] == Mask(order, selected)[2..];
        assert Mask(order, selected)[1..] == [false] + Mask(order, selected)[2..];
        MaskCons(order[0], Raised(order[1..], selected), selected);
      }
    }
  }

  lemma MaskCons(head: Item, rest: seq<Item>, selected: set<Item>)
    ensures Mask([head] + rest, selected) == [head in selected] + Mask(rest, selected)
  {
  }

  lemma MaskReversed(order: seq<Item>, selected: set<Item>, i: nat)
    requires i < |order|
    ensures Mask(Reversed(order), selected)[i] == Mask(order, selected)[|order| - 1 - i]
  {
  }

  /** A list is determined by which places are selected and by the order within each of the two groups. */
  lemma {:induction false} DeterminedByMaskAndParts(a: seq<Item>, b: seq<Item>, selected: set<Item>)
    requires |a| == |b| && Mask(a, selected) == Mask(b, selected)
    requires forall chosen :: Part(a, selected, chosen) == Part(b, selected, chosen)
    ensures a == b
    decreases |a|
  {
    if a != [] {
      assert Mask(a, selected)[0] == Mask(b, selected)[0];
      SameTails(a, b, selected);
      DeterminedByMaskAndParts(a[1..], b[1..], selected);
      PartHead(a, selected);
      PartHead(b, selected);
      assert a == [a[0]] + a[1..] && b == [b[0]] + b[1..];
    }
  }

  lemma SameTails(a: seq<Item>, b: seq<Item>, selected: set<Item>)
    requires |a| == |b| && a != [] && Mask(a, selected) == Mask(b, selected)
    requires forall chosen :: Part(a, selected, chosen) == Part(b, selected, chosen)
    ensures Mask(a[1..], selected) == Mask(b[1..], selected)
    ensures forall chosen :: Part(a[1..], selected, chosen) == Part(b[1..], selected, chosen)
  {
    MaskTail(a, selected);
    MaskTail(b, selected);
    forall chosen
      ensures Part(a[1..], selected, chosen) == Part(b[1..], selected, chosen)
    {
      PartTail(a, selected, chosen);
      PartTail(b, selected, chosen);
    }
  }

  lemma MaskTail(order: seq<Item>, selected: set<Item>)
    requires order != []
    ensures Mask(order, selected)[0] == (order[0] in selected)
    ensures Mask(order, selected)[1..] == Mask(order[1..], selected)
  {
  }

  lemma PartHead(order: seq<Item>, selected: set<Item>)
    requires order != []
    ensures var part := Part(order, selected, order[0] in selected); part != [] && part[0] == order[0]
  {
  }

  lemma PartTail(order: seq<Item>, selected: set<Item>, chosen: bool)
    requires order != []
    ensures var part := Part(order, selected, chosen);
            Part(order[1..], selected, chosen) ==
            (if (order[0] in selected) == chosen then (if part == [] then [] else part[1..]) else part)
  {
  }

  lemma {:induction false} PartsAppend(a: seq<Item>, b: seq<Item>, selected: set<Item>, chosen: bool)
    ensures Part(a + b, selected, chosen) == Part(a, selected, chosen) + Part(b, selected, chosen)
    decreases |a|
  {
    if a == [] {
      assert a + b == b;
    } else {
      var head := if (a[0] in selected) == chosen then [a[0]] else [];
      calc {
        Part(a + b, selected, chosen);
        { assert a + b == [a[0]] + (a[1..] + b); PartCons(a[0], a[1..] + b, selected, chosen); }
        head + Part(a[1..] + b, selected, chosen);
        { PartsAppend(a[1..], b, selected, chosen); }
        head + (Part(a[1..], selected, chosen) + Part(b, selected, chosen));
        head + Part(a[1..], selected, chosen) + Part(b, selected, chosen);
        Part(a, selected, chosen) + Part(b, selected, chosen);
      }
    }
  }

  lemma {:induction false} PartsOfReversed(order: seq<Item>, selected: set<Item>, chosen: bool)
    ensures Part(Reversed(order), selected, chosen) == Reversed(Part(order, selected, chosen))
    decreases |order|
  {
    if order != [] {
      PartsOfReversed(order[1..], selected, chosen);
      assert Reversed(order) == Reversed(order[1..]) + [order[0]];
      PartsAppend(Reversed(order[1..]), [order[0]], selected, chosen);
      PartCons(order[0], [], selected, chosen);
      assert [order[0]] + [] == [order[0]];
    }
  }

  lemma ReversedTwice(order: seq<Item>)
    ensures Reversed(Reversed(order)) == order
  {
  }

  lemma LoweredKeepsRelativeOrder(order: seq<Item>, selected: set<Item>, chosen: bool)
    ensures Part(Lowered(order, selected), selected, chosen) == Part(order, selected, chosen)
  {
    var mirror := Reversed(order);
    PartsOfReversed(order, selected, chosen);
    RaisedKeepsRelativeOrder(mirror, selected, chosen);
    PartsOfReversed(Raised(mirror, selected), selected, chosen);
    ReversedTwice(Part(order, selected, chosen));
  }

  lemma {:induction false} ReversedPermutes(order: seq<Item>)
    ensures multiset(Reversed(order)) == multiset(order)
    decreases |order|
  {
    if order != [] {
      ReversedPermutes(order[1..]);
      assert Reversed(order) == Reversed(order[1..]) + [order[0]];
      assert order == [order[0]] + order[1..];
    }
  }

  lemma LoweredPermutes(order: seq<Item>, selected: set<Item>)
    ensures multiset(Lowered(order, selected)) == multiset(order)
  {
    ReversedPermutes(order);
    RaisedPermutes(Reversed(order), selected);
    ReversedPermutes(Raised(Reversed(order), selected));
  }

  /** A selected item moves down by exactly one place, unless its run already stands at the bottom. */
  lemma LoweredMovesByOne(order: seq<Item>, selected: set<Item>, i: nat)
    requires i < |order| && order[i] in selected
    ensures if AllSelected(order[i + 1..], selected) then Lowered(order, selected)[i] == order[i]
            else i + 1 < |order| && Lowered(order, selected)[i + 1] == order[i]
  {
    var mirror, j := Reversed(order), |order| - 1 - i;
    RaisedMovesByOne(mirror, selected, j);
    assert Reversed(order[i + 1..]) == mirror[..j];
    AllSelectedReversed(order[i + 1..], selected);
  }

  lemma AllSelectedReversed(order: seq<Item>, selected: set<Item>)
    ensures AllSelected(Reversed(order), selected) <==> AllSelected(order, selected)
  {
    forall i | 0 <= i < |order| && AllSelected(Reversed(order), selected)
      ensures order[i] in selected
    {
      assert order[i] == Reversed(order)[|order| - 1 - i];
    }
  }

  lemma MaskOfLowered(order: seq<Item>, selected: set<Item>)
    requires order != [] && order[|order| - 1] !in selected
    ensures Mask(Lowered(order, selected), selected) == [false] + Mask(order, selected)[..|order| - 1]
  {
    var mirror, n := Reversed(order), |order|;
    MaskOfRaised(mirror, selected);
    var raised := Raised(mirror, selected);
    forall i | 0 <= i < n
      ensures Mask(Lowered(order, selected), selected)[i] == ([false] + Mask(order, selected)[..n - 1])[i]
    {
      MaskReversed(raised, selected, i);
      if i > 0 {
        assert Mask(raised, selected)[n - 1 - i] == Mask(mirror, selected)[n - i];
        MaskReversed(order, selected, n - i);
      }
    }
  }

  lemma UpThenDownWhenFirstUnselected(order: seq<Item>, selected: set<Item>)
    requires order != [] && order[0] !in selected
    ensures Lowered(Raised(order, selected), selected) == order
  {
    var up := Raised(order, selected);
    MaskOfRaised(order, selected);
    assert Mask(up, selected)[|up| - 1] == false;
    MaskOfLowered(up, selected);
    assert Mask(up, selected)[..|up| - 1] == Mask(order, selected)[1..];
    assert Mask(order, selected) == [false] + Mask(order, selected)[1..];
    forall chosen
      ensures Part(Lowered(up, selected), selected, chosen) == Part(order, selected, chosen)
    {
      RaisedKeepsRelativeOrder(order, selected, chosen);
      LoweredKeepsRelativeOrder(up, selected, chosen);
    }
    DeterminedByMaskAndParts(Lowered(up, selected), order, selected);
  }

  lemma {:induction false} AllSelectedStay(order: seq<Item>, selected: set<Item>)
    requires AllSelected(order, selected)
    ensures Raised(order, selected) == order
    decreases |order|
  {
    if |order| >= 2 {
      AllSelectedStay(order[1..], selected);
      assert order == [order[0]] + order[1..];
    }
  }

  lemma {:induction false} UnselectedEndsLast(order: seq<Item>, selected: set<Item>)
    requires !AllSelected(order, selected)
    ensures order != [] && Raised(order, selected)[|order| - 1] !in selected
    decreases |order|
  {
    if |order| >= 2 {
      if order[0] !in selected && order[1] in selected {
        var swapped := [order[0]] + order[2..];
        assert swapped[0] !in selected;
        UnselectedEndsLast(swapped, selected);
      } else {
        var i :| 0 <= i < |order| && order[i] !in selected;
        assert order[1..][if i == 0 then 0 else i - 1] !in selected;
        UnselectedEndsLast(order[1..], selected);
      }
    }
  }

  /** Moving up and down again restores the order exactly when the top item is unselected or nothing can move. */
  lemma UpThenDownRestores(order: seq<Item>, selected: set<Item>)
    ensures Lowered(Raised(order, selected), selected) == order <==>
            (order == [] || order[0] !in selected || AllSelected(order, selected))
  {
    var up := Raised(order, selected);
    if order == [] {
    } else if order[0] !in selected {
      UpThenDownWhenFirstUnselected(order, selected);
    } else if AllSelected(order, selected) {
      AllSelectedStay(order, selected);
      AllSelectedStay(Reversed(order), selected);
      ReversedTwice(order);
    } else {
      SomeStayUnselected(order, selected);
      UnselectedEndsLast(Reversed(up), selected);
      assert Lowered(up, selected)[0] !in selected;
    }
  }

  lemma SomeStayUnselected(order: seq<Item>, selected: set<Item>)
    requires !AllSelected(order, selected)
    ensures !AllSelected(Reversed(Raised(order, selected)), selected)
  {
    var up := Raised(order, selected);
    UnselectedEndsLast(order, selected);
    assert Reversed(up)[0] == up[|up| - 1];
  }

  // ---------------------------------------------------------------------------------------------
  // Runs and steps

  /** A maximal stretch of selected items, both ends included. */
  datatype Run = Run(start: nat, end: nat)

  /** The first place from `cursor` on that is not selected. */
  function RunEnd(order: seq<Item>, selected: set<Item>, cursor: nat): (end: nat)
    requires cursor <= |order|
    ensures cursor <= end <= |order| && forall i :: cursor <= i < end ==> order[i] in selected
    ensures end < |order| ==> order[end] !in selected
    decreases |order| - cursor
  {
    if cursor == |order| || order[cursor] !in selected then cursor else RunEnd(order, selected, cursor + 1)
  }

  function RunsFrom(order: seq<Item>, selected: set<Item>, cursor: nat): seq<Run>
    requires cursor <= |order|
    decreases |order| - cursor
  {
    if cursor == |order| then []
    else if order[cursor] !in selected then RunsFrom(order, selected, cursor + 1)
    else
      var end := RunEnd(order, selected, cursor + 1);
      [Run(cursor, end - 1)] + RunsFrom(order, selected, end)
  }

  predicate WithinOrder(order: seq<Item>, runs: seq<Run>) {
    forall i :: 0 <= i < |runs| ==> runs[i].start <= runs[i].end < |order|
  }

  /** For every run that is not at the top, its upper neighbour moves below it. */
  function UpSteps(order: seq<Item>, runs: seq<Run>): seq<MoveStep>
    requires WithinOrder(order, runs)
  {
    if runs == [] then []
    else
      UpStep(order, runs[0]) + UpSteps(order, runs[1..])
  }

  /** From the last run to the first: for every run that is not at the bottom, its lower neighbour moves above it. */
  function DownSteps(order: seq<Item>, runs: seq<Run>): seq<MoveStep>
    requires WithinOrder(order, runs)
  {
    if runs == [] then []
    else
      DownStep(order, runs[|runs| - 1]) + DownSteps(order, runs[..|runs| - 1])
  }

  lemma {:induction false} RunsAreWithin(order: seq<Item>, selected: set<Item>, cursor: nat)
    requires cursor <= |order|
    ensures WithinOrder(order, RunsFrom(order, selected, cursor))
    decreases |order| - cursor
  {
    if cursor < |order| {
      if order[cursor] !in selected {
        RunsAreWithin(order, selected, cursor + 1);
      } else {
        RunsAreWithin(order, selected, RunEnd(order, selected, cursor + 1));
      }
    }
  }

  // ---------------------------------------------------------------------------------------------
  // The steps perform the move

  /** One run with its upper neighbour, cut off from what follows. */
  lemma {:induction false} RaisedBlock(top: Item, run: seq<Item>, rest: seq<Item>, selected: set<Item>)
    requires top !in selected && AllSelected(run, selected) && (rest != [] ==> rest[0] !in selected)
    ensures Raised([top] + run + rest, selected) == run + [top] + Raised(rest, selected)
    decreases |run|
  {
    var order := [top] + run + rest;
    if run == [] {
      if rest == [] { assert order == [top]; } else { assert order[1..] == rest; }
    } else {
      calc {
        Raised(order, selected);
        { assert order[1] == run[0] && [order[0]] + order[2..] == [top] + run[1..] + rest; }
        [run[0]] + Raised([top] + run[1..] + rest, selected);
        { RaisedBlock(top, run[1..], rest, selected); }
        [run[0]] + (run[1..] + [top] + Raised(rest, selected));
        { assert run == [run[0]] + run[1..]; }
        run + [top] + Raised(rest, selected);
      }
    }
  }

  lemma SelectedTopStays(order: seq<Item>, selected: set<Item>)
    requires order != [] && order[0] in selected
    ensures Raised(order, selected) == [order[0]] + Raised(order[1..], selected)
  {
    if |order| == 1 { assert order == [order[0]] && order[1..] == []; }
  }

  lemma {:induction false} RaisedTopRun(run: seq<Item>, rest: seq<Item>, selected: set<Item>)
    requires AllSelected(run, selected)
    ensures Raised(run + rest, selected) == run + Raised(rest, selected)
    decreases |run|
  {
    if run == [] {
      assert run + rest == rest;
    } else {
      SelectedTopStays(run + rest, selected);
      assert (run + rest)[1..] == run[1..] + rest;
      RaisedTopRun(run[1..], rest, selected);
    }
  }

  /** Where the part that is still to be raised begins: an unselected item just before the cursor belongs to it. */
  function Pending(order: seq<Item>, selected: set<Item>, cursor: nat): (from: nat)
    requires cursor <= |order|
    ensures from <= cursor
  {
    if cursor > 0 && order[cursor - 1] !in selected then cursor - 1 else cursor
  }

  /** The upward steps from a cursor on, read off the order directly. */
  function UpStepsFrom(order: seq<Item>, selected: set<Item>, cursor: nat): seq<MoveStep>
    requires cursor <= |order|
    decreases |order| - cursor
  {
    if cursor == |order| then []
    else if order[cursor] !in selected then UpStepsFrom(order, selected, cursor + 1)
    else
      var end := RunEnd(order, selected, cursor + 1);
      (if cursor > 0 then [MoveStep(order[cursor - 1], cursor - 1, end - 1)] else []) +
      UpStepsFrom(order, selected, end)
  }

  lemma UpStepsCons(order: seq<Item>, run: Run, rest: seq<Run>)
    requires run.start <= run.end < |order| && WithinOrder(order, rest)
    ensures WithinOrder(order, [run] + rest)
    ensures UpSteps(order, [run] + rest) == UpStep(order, run) + UpSteps(order, rest)
  {
    assert ([run] + rest)[1..] == rest;
  }

  lemma DownStepsSnoc(order: seq<Item>, rest: seq<Run>, run: Run)
    requires run.start <= run.end < |order| && WithinOrder(order, rest)
    ensures WithinOrder(order, rest + [run])
    ensures DownSteps(order, rest + [run]) == DownStep(order, run) + DownSteps(order, rest)
  {
    assert (rest + [run])[..|rest|] == rest;
  }

  lemma {:induction false} StepsOfRuns(order: seq<Item>, selected: set<Item>, cursor: nat)
    requires cursor <= |order|
    ensures WithinOrder(order, RunsFrom(order, selected, cursor))
    ensures UpSteps(order, RunsFrom(order, selected, cursor)) == UpStepsFrom(order, selected, cursor)
    decreases |order| - cursor
  {
    RunsAreWithin(order, selected, cursor);
    if cursor < |order| {
      if order[cursor] !in selected {
        StepsOfRuns(order, selected, cursor + 1);
      } else {
        var end := RunEnd(order, selected, cursor + 1);
        StepsOfRuns(order, selected, end);
        UpStepsCons(order, Run(cursor, end - 1), RunsFrom(order, selected, end));
      }
    }
  }

  /** Everything before the pending part is already moved and reads `done`. */
  lemma {:induction false} StepsRaise(order: seq<Item>, selected: set<Item>, cursor: nat, done: seq<Item>)
    requires cursor <= |order| && |done| == Pending(order, selected, cursor)
    requires 0 < cursor < |order| && order[cursor - 1] in selected ==> order[cursor] !in selected
    ensures After(done + order[|done|..], UpStepsFrom(order, selected, cursor)) ==
            Ok(done + Raised(order[|done|..], selected))
    decreases |order| - cursor
  {
    if cursor == |order| {
    } else if order[cursor] !in selected {
      var more := if |done| == cursor then done else done + [order[cursor - 1]];
      StepsRaise(order, selected, cursor + 1, more);
      if |done| < cursor { UnselectedPairStays(order, selected, cursor, done); }
    } else {
      var end := RunEnd(order, selected, cursor + 1);
      if cursor == 0 {
        assert done == [];
        StepsRaise(order, selected, end, order[..end]);
        TopStepsStart(order, selected, end);
        TopRaised(order, selected, end);
      } else {
        StepsRaise(order, selected, end, done + order[cursor..end] + [order[cursor - 1]]);
        RunBelow(order, selected, cursor, end, done);
      }
    }
  }

  lemma TopStepsStart(order: seq<Item>, selected: set<Item>, end: nat)
    requires order != [] && order[0] in selected && end == RunEnd(order, selected, 1)
    ensures UpStepsFrom(order, selected, 0) == UpStepsFrom(order, selected, end)
  {
    assert [] + UpStepsFrom(order, selected, end) == UpStepsFrom(order, selected, end);
  }

  lemma TopRaised(order: seq<Item>, selected: set<Item>, end: nat)
    requires end <= |order| && AllSelected(order[..end], selected)
    ensures [] + order[0..] == order[..end] + order[end..]
    ensures [] + Raised(order[0..], selected) == order[..end] + Raised(order[end..], selected)
  {
    assert order[0..] == order[..end] + order[end..];
    RaisedTopRun(order[..end], order[end..], selected);
  }

  lemma RunBelow(order: seq<Item>, selected: set<Item>, cursor: nat, end: nat, done: seq<Item>)
    requires 0 < cursor < |order| && |done| == cursor - 1 && order[cursor - 1] !in selected
    requires order[cursor] in selected && end == RunEnd(order, selected, cursor + 1)
    requires var more := done + order[cursor..end] + [order[cursor - 1]];
             After(more + order[end..], UpStepsFrom(order, selected, end)) == Ok(more + Raised(order[end..], selected))
    ensures After(done + order[cursor - 1..], UpStepsFrom(order, selected, cursor)) ==
            Ok(done + Raised(order[cursor - 1..], selected))
  {
    RunBelowSteps(order, selected, cursor, end, done);
    RunBelowRaised(order, selected, cursor, end, done);
  }

  lemma RunBelowSteps(order: seq<Item>, selected: set<Item>, cursor: nat, end: nat, done: seq<Item>)
    requires 0 < cursor < |order| && |done| == cursor - 1
    requires order[cursor] in selected && end == RunEnd(order, selected, cursor + 1)
    ensures After(done + order[cursor - 1..], UpStepsFrom(order, selected, cursor)) ==
            After(done + order[cursor..end] + [order[cursor - 1]] + order[end..], UpStepsFrom(order, selected, end))
  {
    SplitAt(order, cursor, end);
    FirstUpStep(order, selected, cursor, end);
    RewrittenBlock(done + order[cursor - 1..], UpStepsFrom(order, selected, cursor), done, order[cursor - 1],
                   order[cursor..end], order[end..], UpStepsFrom(order, selected, end));
  }

  lemma RewrittenBlock(start: seq<Item>, steps: seq<MoveStep>, done: seq<Item>, top: Item, run: seq<Item>,
                       rest: seq<Item>, tail: seq<MoveStep>)
    requires start == done + ([top] + run + rest)
    requires steps == [MoveStep(top, |done|, |done| + |run|)] + tail
    ensures After(start, steps) == After(done + run + [top] + rest, tail)
  {
    BlockStep(done, top, run, rest, tail);
  }

  lemma FirstUpStep(order: seq<Item>, selected: set<Item>, cursor: nat, end: nat)
    requires 0 < cursor < |order| && order[cursor] in selected && end == RunEnd(order, selected, cursor + 1)
    ensures UpStepsFrom(order, selected, cursor) ==
            [MoveStep(order[cursor - 1], cursor - 1, end - 1)] + UpStepsFrom(order, selected, end)
  {
  }

  lemma RunBelowRaised(order: seq<Item>, selected: set<Item>, cursor: nat, end: nat, done: seq<Item>)
    requires 0 < cursor < |order| && order[cursor - 1] !in selected
    requires order[cursor] in selected && end == RunEnd(order, selected, cursor + 1)
    ensures done + Raised(order[cursor - 1..], selected) ==
            done + order[cursor..end] + [order[cursor - 1]] + Raised(order[end..], selected)
  {
    SplitAt(order, cursor, end);
    RaisedBlock(order[cursor - 1], order[cursor..end], order[end..], selected);
    Regroup(done, order[cursor..end], [order[cursor - 1]], Raised(order[end..], selected));
  }

  lemma SplitAt(order: seq<Item>, cursor: nat, end: nat)
    requires 0 < cursor <= end <= |order|
    ensures order[cursor - 1..] == [order[cursor - 1]] + order[cursor..end] + order[end..]
  {
  }

  lemma Regroup(a: seq<Item>, b: seq<Item>, c: seq<Item>, d: seq<Item>)
    ensures a + b + c + d == a + (b + c + d)
  {
  }

  /** The first step carries a run's upper neighbour below it. */
  lemma BlockStep(done: seq<Item>, top: Item, run: seq<Item>, rest: seq<Item>, tail: seq<MoveStep>)
    ensures After(done + ([top] + run + rest), [MoveStep(top, |done|, |done| + |run|)] + tail) ==
            After(done + run + [top] + rest, tail)
  {
    Regroup(done, [top], run, rest);
    MovedBlock(done, top, run, rest);
    FirstStep(done + [top] + run + rest, MoveStep(top, |done|, |done| + |run|), tail);
  }

  lemma UnselectedPairStays(order: seq<Item>, selected: set<Item>, cursor: nat, done: seq<Item>)
    requires 0 < cursor < |order| && order[cursor - 1] !in selected && order[cursor] !in selected
    ensures done + order[cursor - 1..] == done + [order[cursor - 1]] + order[cursor..]
    ensures done + Raised(order[cursor - 1..], selected) ==
            done + [order[cursor - 1]] + Raised(order[cursor..], selected)
  {
    UnselectedTopStays(order[cursor - 1..], selected);
    assert order[cursor - 1..][1..] == order[cursor..];
    Regroup(done, [order[cursor - 1]], [], Raised(order[cursor..], selected));
    Regroup(done, [order[cursor - 1]], [], order[cursor..]);
  }

  lemma UnselectedTopStays(order: seq<Item>, selected: set<Item>)
    requires |order| >= 2 && order[1] !in selected
    ensures Raised(order, selected) == [order[0]] + [] + Raised(order[1..], selected)
  {
  }

  lemma FirstStep(now: seq<Item>, step: MoveStep, steps: seq<MoveStep>)
    requires Applies(now, step)
    ensures After(now, [step] + steps) == After(Moved(now, step), steps)
  {
    assert ([step] + steps)[1..] == steps;
  }

  lemma MovedBlock(done: seq<Item>, top: Item, run: seq<Item>, rest: seq<Item>)
    ensures var now, step := done + [top] + run + rest, MoveStep(top, |done|, |done| + |run|);
            Applies(now, step) && Moved(now, step) == done + run + [top] + rest
  {
    var now := done + [top] + run + rest;
    assert now[..|done|] == done && now[|done| + 1..|done| + |run| + 1] == run && now[|done| + |run| + 1..] == rest;
  }

  // ---------------------------------------------------------------------------------------------
  // Runs, described from both ends

  predicate IsRun(order: seq<Item>, selected: set<Item>, run: Run) {
    && run.start <= run.end < |order|
    && (forall i :: run.start <= i <= run.end ==> order[i] in selected)
    && (run.start > 0 ==> order[run.start - 1] !in selected)
    && (run.end + 1 < |order| ==> order[run.end + 1] !in selected)
  }

  predicate Covers(runs: seq<Run>, i: nat) {
    exists k :: 0 <= k < |runs| && runs[k].start <= i <= runs[k].end
  }

  /** The list holds the maximal runs from a place on, in order, and misses no selected item. */
  ghost predicate MaximalRuns(order: seq<Item>, selected: set<Item>, from: nat, runs: seq<Run>) {
    && (forall k :: 0 <= k < |runs| ==> from <= runs[k].start && IsRun(order, selected, runs[k]))
    && (forall k, l :: 0 <= k < l < |runs| ==> runs[k].end < runs[l].start)
    && (forall i {:trigger Covers(runs, i)} :: from <= i < |order| && order[i] in selected ==> Covers(runs, i))
  }

  lemma {:induction false} RunsAreMaximal(order: seq<Item>, selected: set<Item>, cursor: nat)
    requires cursor <= |order| && (0 < cursor < |order| && order[cursor] in selected ==> order[cursor - 1] !in selected)
    ensures MaximalRuns(order, selected, cursor, RunsFrom(order, selected, cursor))
    decreases |order| - cursor
  {
    if cursor < |order| {
      if order[cursor] !in selected {
        RunsAreMaximal(order, selected, cursor + 1);
      } else {
        var end := RunEnd(order, selected, cursor + 1);
        RunsAreMaximal(order, selected, end);
        PrependRun(order, selected, cursor, end, RunsFrom(order, selected, end));
      }
    }
  }

  lemma PrependRun(order: seq<Item>, selected: set<Item>, cursor: nat, end: nat, rest: seq<Run>)
    requires cursor < end <= |order| && IsRun(order, selected, Run(cursor, end - 1))
    requires MaximalRuns(order, selected, end, rest)
    ensures MaximalRuns(order, selected, cursor, [Run(cursor, end - 1)] + rest)
  {
    var runs := [Run(cursor, end - 1)] + rest;
    forall i | cursor <= i < |order| && order[i] in selected
      ensures Covers(runs, i)
    {
      if i < end {
        assert runs[0].start <= i <= runs[0].end;
      } else {
        assert Covers(rest, i);
        var k :| 0 <= k < |rest| && rest[k].start <= i <= rest[k].end;
        assert runs[k + 1] == rest[k];
      }
    }
  }

  lemma NoRunAtEnd(order: seq<Item>, selected: set<Item>, runs: seq<Run>)
    requires MaximalRuns(order, selected, |order|, runs)
    ensures runs == []
  {
    if runs != [] { RunIsWithin(order, selected, |order|, runs, 0); }
  }

  lemma RunIsWithin(order: seq<Item>, selected: set<Item>, from: nat, runs: seq<Run>, k: nat)
    requires MaximalRuns(order, selected, from, runs) && k < |runs|
    ensures from <= runs[k].start <= runs[k].end < |order| && (k > 0 ==> from < runs[k].start)
  {
    assert IsRun(order, selected, runs[k]);
    if k > 0 { assert IsRun(order, selected, runs[0]) && runs[0].end < runs[k].start; }
  }

  lemma SkipUnselected(order: seq<Item>, selected: set<Item>, cursor: nat, runs: seq<Run>)
    requires cursor < |order| && order[cursor] !in selected && MaximalRuns(order, selected, cursor, runs)
    ensures MaximalRuns(order, selected, cursor + 1, runs)
  {
    forall k | 0 <= k < |runs|
      ensures cursor + 1 <= runs[k].start
    {
      assert IsRun(order, selected, runs[k]);
    }
  }

  /** There is only one such list. */
  lemma {:induction false} MaximalRunsAreUnique(order: seq<Item>, selected: set<Item>, cursor: nat, runs: seq<Run>)
    requires cursor <= |order| && MaximalRuns(order, selected, cursor, runs)
    ensures runs == RunsFrom(order, selected, cursor)
    decreases |order| - cursor
  {
    if cursor == |order| {
      NoRunAtEnd(order, selected, runs);
    } else if order[cursor] !in selected {
      SkipUnselected(order, selected, cursor, runs);
      MaximalRunsAreUnique(order, selected, cursor + 1, runs);
    } else {
      var end := RunEnd(order, selected, cursor + 1);
      FirstRun(order, selected, cursor, runs);
      MaximalRunsAreUnique(order, selected, end, runs[1..]);
    }
  }

  lemma FirstRun(order: seq<Item>, selected: set<Item>, cursor: nat, runs: seq<Run>)
    requires cursor < |order| && order[cursor] in selected && MaximalRuns(order, selected, cursor, runs)
    ensures runs != [] && runs == [Run(cursor, RunEnd(order, selected, cursor + 1) - 1)] + runs[1..]
    ensures MaximalRuns(order, selected, RunEnd(order, selected, cursor + 1), runs[1..])
  {
    FirstRunIsHere(order, selected, cursor, runs);
    LaterRuns(order, selected, cursor, runs);
  }

  lemma FirstRunIsHere(order: seq<Item>, selected: set<Item>, cursor: nat, runs: seq<Run>)
    requires cursor < |order| && order[cursor] in selected && MaximalRuns(order, selected, cursor, runs)
    ensures runs != [] && runs[0] == Run(cursor, RunEnd(order, selected, cursor + 1) - 1)
  {
    assert Covers(runs, cursor);
    var k :| 0 <= k < |runs| && runs[k].start <= cursor <= runs[k].end;
    RunIsWithin(order, selected, cursor, runs, k);
    assert IsRun(order, selected, runs[0]);
  }

  lemma LaterRuns(order: seq<Item>, selected: set<Item>, cursor: nat, runs: seq<Run>)
    requires cursor <= |order| && MaximalRuns(order, selected, cursor, runs) && runs != []
    ensures MaximalRuns(order, selected, runs[0].end + 1, runs[1..])
  {
    forall i | runs[0].end < i < |order| && order[i] in selected
      ensures Covers(runs[1..], i)
    {
      assert Covers(runs, i);
      var l :| 0 <= l < |runs| && runs[l].start <= i <= runs[l].end;
      assert runs[1..][l - 1] == runs[l];
    }
  }

  // ---------------------------------------------------------------------------------------------
  // Moving down is moving up in the mirror

  function MirrorStep(n: nat, step: MoveStep): MoveStep
    requires step.from < n && step.to < n
  {
    MoveStep(step.item, n - 1 - step.from, n - 1 - step.to)
  }

  predicate StepsWithin(n: nat, steps: seq<MoveStep>) {
    forall i :: 0 <= i < |steps| ==> steps[i].from < n && steps[i].to < n
  }

  function MirrorSteps(n: nat, steps: seq<MoveStep>): (r: seq<MoveStep>)
    requires StepsWithin(n, steps)
    ensures |r| == |steps|
  {
    seq(|steps|, i requires 0 <= i < |steps| => MirrorStep(n, steps[i]))
  }

  function MirrorRuns(n: nat, runs: seq<Run>): (r: seq<Run>)
    requires forall i :: 0 <= i < |runs| ==> runs[i].start <= runs[i].end < n
    ensures |r| == |runs|
  {
    seq(|runs|, i requires 0 <= i < |runs| =>
          Run(n - 1 - runs[|runs| - 1 - i].end, n - 1 - runs[|runs| - 1 - i].start))
  }

  lemma MirrorRunsAreMaximal(order: seq<Item>, selected: set<Item>, runs: seq<Run>)
    requires MaximalRuns(order, selected, 0, runs)
    ensures MaximalRuns(Reversed(order), selected, 0, MirrorRuns(|order|, runs))
  {
    var n, mirror := |order|, MirrorRuns(|order|, runs);
    forall k | 0 <= k < |mirror|
      ensures IsRun(Reversed(order), selected, mirror[k])
    {
      MirrorRun(order, selected, runs[|runs| - 1 - k]);
    }
    forall i | 0 <= i < n && Reversed(order)[i] in selected
      ensures Covers(mirror, i)
    {
      MirrorCovers(n, runs, n - 1 - i);
    }
  }

  lemma MirrorCovers(n: nat, runs: seq<Run>, i: nat)
    requires (forall k :: 0 <= k < |runs| ==> runs[k].start <= runs[k].end < n) && Covers(runs, i) && i < n
    ensures Covers(MirrorRuns(n, runs), n - 1 - i)
  {
    var k :| 0 <= k < |runs| && runs[k].start <= i <= runs[k].end;
    assert MirrorRuns(n, runs)[|runs| - 1 - k] == Run(n - 1 - runs[k].end, n - 1 - runs[k].start);
  }

  lemma MirrorRun(order: seq<Item>, selected: set<Item>, run: Run)
    requires IsRun(order, selected, run)
    ensures IsRun(Reversed(order), selected, Run(|order| - 1 - run.end, |order| - 1 - run.start))
  {
  }

  lemma MovedInMirror(order: seq<Item>, step: MoveStep)
    requires Applies(order, step)
    ensures Applies(Reversed(order), MirrorStep(|order|, step))
    ensures Moved(Reversed(order), MirrorStep(|order|, step)) == Reversed(Moved(order, step))
  {
    var a, b := Moved(Reversed(order), MirrorStep(|order|, step)), Moved(order, step);
    forall i | 0 <= i < |order|
      ensures a[i] == b[|order| - 1 - i]
    {
      MovedInMirrorAt(order, step, i);
    }
    IsReversed(a, b);
  }

  lemma IsReversed(a: seq<Item>, b: seq<Item>)
    requires |a| == |b| && forall i :: 0 <= i < |a| ==> a[i] == b[|a| - 1 - i]
    ensures a == Reversed(b)
  {
  }

  lemma MovedInMirrorAt(order: seq<Item>, step: MoveStep, i: nat)
    requires Applies(order, step) && i < |order|
    ensures Applies(Reversed(order), MirrorStep(|order|, step))
    ensures Moved(Reversed(order), MirrorStep(|order|, step))[i] == Moved(order, step)[|order| - 1 - i]
  {
    MovedAt(Reversed(order), MirrorStep(|order|, step), i);
    MovedAt(order, step, |order| - 1 - i);
  }

  lemma MovedAt(order: seq<Item>, step: MoveStep, i: nat)
    requires Applies(order, step) && i < |order|
    ensures Moved(order, step)[i] ==
            if i == step.to then step.item
            else if step.from <= i < step.to then order[i + 1]
            else if step.to < i <= step.from then order[i - 1]
            else order[i]
  {
  }

  lemma FirstStepInMirror(n: nat, steps: seq<MoveStep>)
    requires steps != [] && StepsWithin(n, steps)
    ensures MirrorSteps(n, steps) == [MirrorStep(n, steps[0])] + MirrorSteps(n, steps[1..])
  {
  }

  lemma {:induction false} AfterInMirror(order: seq<Item>, steps: seq<MoveStep>)
    requires StepsWithin(|order|, steps) && After(order, steps).Ok?
    ensures After(Reversed(order), MirrorSteps(|order|, steps)) == Ok(Reversed(After(order, steps).value))
    decreases |steps|
  {
    if steps != [] {
      MovedInMirror(order, steps[0]);
      AfterInMirror(Moved(order, steps[0]), steps[1..]);
      FirstStepInMirror(|order|, steps);
      FirstStep(Reversed(order), MirrorStep(|order|, steps[0]), MirrorSteps(|order|, steps[1..]));
    }
  }

  lemma MirrorAppend(n: nat, a: seq<MoveStep>, b: seq<MoveStep>)
    requires StepsWithin(n, a) && StepsWithin(n, b)
    ensures StepsWithin(n, a + b) && MirrorSteps(n, a + b) == MirrorSteps(n, a) + MirrorSteps(n, b)
  {
  }

  /** The steps for one run, upward and downward. */
  function UpStep(order: seq<Item>, run: Run): seq<MoveStep>
    requires run.start <= run.end < |order|
  {
    if run.start > 0 then [MoveStep(order[run.start - 1], run.start - 1, run.end)] else []
  }

  function DownStep(order: seq<Item>, run: Run): seq<MoveStep>
    requires run.start <= run.end < |order|
  {
    if run.end + 1 < |order| then [MoveStep(order[run.end + 1], run.end + 1, run.start)] else []
  }

  lemma DownStepInMirror(order: seq<Item>, run: Run)
    requires run.start <= run.end < |order|
    ensures var up := UpStep(Reversed(order), Run(|order| - 1 - run.end, |order| - 1 - run.start));
            StepsWithin(|order|, up) && DownStep(order, run) == MirrorSteps(|order|, up)
  {
  }

  /** The upward steps for the mirrored runs. */
  function MirrorUp(order: seq<Item>, runs: seq<Run>): seq<MoveStep>
    requires WithinOrder(order, runs)
  {
    UpSteps(Reversed(order), MirrorRuns(|order|, runs))
  }

  lemma {:induction false} DownStepsInMirror(order: seq<Item>, runs: seq<Run>)
    requires WithinOrder(order, runs)
    ensures StepsWithin(|order|, MirrorUp(order, runs))
    ensures DownSteps(order, runs) == MirrorSteps(|order|, MirrorUp(order, runs))
    decreases |runs|
  {
    if runs != [] {
      var rest, run := runs[..|runs| - 1], runs[|runs| - 1];
      assert runs == rest + [run];
      DownStepsInMirror(order, rest);
      DownStepsSnoc(order, rest, run);
      MirrorUpSnoc(order, rest, run);
      DownStepInMirror(order, run);
      var mirrored := Run(|order| - 1 - run.end, |order| - 1 - run.start);
      MirroredParts(|order|, UpStep(Reversed(order), mirrored), MirrorUp(order, rest), DownStep(order, run),
                    DownSteps(order, rest));
    }
  }

  lemma MirrorUpSnoc(order: seq<Item>, rest: seq<Run>, run: Run)
    requires WithinOrder(order, rest) && run.start <= run.end < |order| && WithinOrder(order, rest + [run])
    ensures MirrorUp(order, rest + [run]) ==
            UpStep(Reversed(order), Run(|order| - 1 - run.end, |order| - 1 - run.start)) + MirrorUp(order, rest)
  {
    var n := |order|;
    MirrorRunsSnoc(n, rest, run);
    UpStepsCons(Reversed(order), Run(n - 1 - run.end, n - 1 - run.start), MirrorRuns(n, rest));
  }

  lemma MirroredParts(n: nat, a: seq<MoveStep>, b: seq<MoveStep>, c: seq<MoveStep>, d: seq<MoveStep>)
    requires StepsWithin(n, a) && StepsWithin(n, b) && c == MirrorSteps(n, a) && d == MirrorSteps(n, b)
    ensures StepsWithin(n, a + b) && c + d == MirrorSteps(n, a + b)
  {
    MirrorAppend(n, a, b);
  }

  lemma MirrorRunsSnoc(n: nat, rest: seq<Run>, run: Run)
    requires run.start <= run.end < n && forall i :: 0 <= i < |rest| ==> rest[i].start <= rest[i].end < n
    ensures MirrorRuns(n, rest + [run]) == [Run(n - 1 - run.end, n - 1 - run.start)] + MirrorRuns(n, rest)
  {
  }

  /** The upward steps move every run by one place. */
  lemma UpStepsRaise(order: seq<Item>, selected: set<Item>)
    ensures WithinOrder(order, RunsFrom(order, selected, 0))
    ensures After(order, UpSteps(order, RunsFrom(order, selected, 0))) == Ok(Raised(order, selected))
  {
    StepsOfRuns(order, selected, 0);
    StepsRaise(order, selected, 0, []);
    assert [] + order[0..] == order && order[0..] == order;
    assert [] + Raised(order, selected) == Raised(order, selected);
  }

  /** And so do the downward steps, seen from the other end. */
  lemma DownStepsLower(order: seq<Item>, selected: set<Item>)
    ensures WithinOrder(order, RunsFrom(order, selected, 0))
    ensures After(order, DownSteps(order, RunsFrom(order, selected, 0))) == Ok(Lowered(order, selected))
  {
    var runs, mirror := RunsFrom(order, selected, 0), Reversed(order);
    RunsAreWithin(order, selected, 0);
    RunsAreMaximal(order, selected, 0);
    MirrorRunsAreMaximal(order, selected, runs);
    MaximalRunsAreUnique(mirror, selected, 0, MirrorRuns(|order|, runs));
    UpStepsRaise(mirror, selected);
    DownStepsInMirror(order, runs);
    AfterInMirror(mirror, UpSteps(mirror, MirrorRuns(|order|, runs)));
    ReversedTwice(order);
  }

  // ---------------------------------------------------------------------------------------------
  // The code

  /** The steps that move a selection one place up (-1) or down (1). */
  method SelectedMoveSteps(order: seq<Item>, selection: seq<Item>, delta: int) returns (r: Result<seq<MoveStep>>)
    ensures r.Ok? <==> |selection| >= 2 && (delta == -1 || delta == 1) &&
                       Part(order, SetOf(selection), true) == selection
    ensures r.Ok? ==> After(order, r.value) ==
                      Ok(if delta < 0 then Raised(order, SetOf(selection)) else Lowered(order, SetOf(selection)))
  {
    var selected := SetOf(selection);
    if |selection| < 2 || (delta != -1 && delta != 1) { return InvalidState; }
    if Part(order, selected, true) != selection { return InvalidState; }
    var runs := FindRuns(order, selected);
    UpStepsRaise(order, selected);
    DownStepsLower(order, selected);
    var steps;
    if delta < 0 { steps := PushUpSteps(order, runs); } else { steps := PushDownSteps(order, runs); }
    return Ok(steps);
  }

  lemma Joined(a: seq<MoveStep>, b: seq<MoveStep>, c: seq<MoveStep>)
    ensures a + (b + c) == a + b + c
    ensures a + [] == a
  {
  }

  method FindRuns(order: seq<Item>, selected: set<Item>) returns (runs: seq<Run>)
    ensures runs == RunsFrom(order, selected, 0)
  {
    var cursor := 0;
    runs := [];
    while cursor < |order|
      invariant cursor <= |order|
      invariant runs + RunsFrom(order, selected, cursor) == RunsFrom(order, selected, 0)
    {
      if order[cursor] !in selected {
        cursor := cursor + 1;
        continue;
      }
      var start := cursor;
      while cursor < |order| && order[cursor] in selected
        invariant start <= cursor <= RunEnd(order, selected, start + 1)
        decreases |order| - cursor
      {
        cursor := cursor + 1;
      }
      assert runs + ([Run(start, cursor - 1)] + RunsFrom(order, selected, cursor)) ==
             runs + [Run(start, cursor - 1)] + RunsFrom(order, selected, cursor);
      runs := runs + [Run(start, cursor - 1)];
    }
  }

  method PushUpSteps(order: seq<Item>, runs: seq<Run>) returns (steps: seq<MoveStep>)
    requires WithinOrder(order, runs)
    ensures steps == UpSteps(order, runs)
  {
    steps := [];
    for i := 0 to |runs|
      invariant steps + UpSteps(order, runs[i..]) == UpSteps(order, runs)
    {
      assert runs[i..] == [runs[i]] + runs[i + 1..];
      UpStepsCons(order, runs[i], runs[i + 1..]);
      Joined(steps, UpStep(order, runs[i]), UpSteps(order, runs[i + 1..]));
      if runs[i].start > 0 {
        steps := steps + [MoveStep(order[runs[i].start - 1], runs[i].start - 1, runs[i].end)];
      }
    }
  }

  lemma NextDownStep(order: seq<Item>, runs: seq<Run>, i: nat, steps: seq<MoveStep>)
    requires WithinOrder(order, runs) && i < |runs|
    ensures steps + DownSteps(order, runs[..i + 1]) == steps + DownStep(order, runs[i]) + DownSteps(order, runs[..i])
    ensures steps + [] == steps
  {
    assert runs[..i + 1] == runs[..i] + [runs[i]];
    DownStepsSnoc(order, runs[..i], runs[i]);
    Joined(steps, DownStep(order, runs[i]), DownSteps(order, runs[..i]));
  }

  method PushDownSteps(order: seq<Item>, runs: seq<Run>) returns (steps: seq<MoveStep>)
    requires WithinOrder(order, runs)
    ensures steps == DownSteps(order, runs)
  {
    steps := [];
    assert runs[..|runs|] == runs;
    for i := |runs| downto 0
      invariant steps + DownSteps(order, runs[..i]) == DownSteps(order, runs)
    {
      NextDownStep(order, runs, i, steps);
      if runs[i].end + 1 < |order| {
        steps := steps + [MoveStep(order[runs[i].end + 1], runs[i].end + 1, runs[i].start)];
      }
    }
  }

  function SetOf(selection: seq<Item>): set<Item> { set item | item in selection }

  // ---------------------------------------------------------------------------------------------
  // Undo

  /** The inverse a board operation records: the steps backwards, with start and target exchanged. */
  function InverseSteps(steps: seq<MoveStep>): seq<MoveStep> {
    if steps == [] then []
    else InverseSteps(steps[1..]) + [MoveStep(steps[0].item, steps[0].to, steps[0].from)]
  }

  lemma MovedBack(order: seq<Item>, step: MoveStep)
    requires Applies(order, step)
    ensures Applies(Moved(order, step), MoveStep(step.item, step.to, step.from))
    ensures Moved(Moved(order, step), MoveStep(step.item, step.to, step.from)) == order
  {
    var moved, back := Moved(order, step), MoveStep(step.item, step.to, step.from);
    MovedAt(order, step, step.to);
    forall i | 0 <= i < |order|
      ensures Moved(moved, back)[i] == order[i]
    {
      MovedAt(moved, back, i);
      MovedAt(order, step, i);
      if i + 1 < |order| { MovedAt(order, step, i + 1); }
      if i > 0 { MovedAt(order, step, i - 1); }
    }
  }

  lemma {:induction false} AfterAppend(order: seq<Item>, steps: seq<MoveStep>, last: MoveStep)
    requires After(order, steps).Ok? && Applies(After(order, steps).value, last)
    ensures After(order, steps + [last]) == Ok(Moved(After(order, steps).value, last))
    decreases |steps|
  {
    if steps != [] {
      AfterAppend(Moved(order, steps[0]), steps[1..], last);
      assert (steps + [last])[1..] == steps[1..] + [last];
    }
  }

  /** Undoing a performed list of steps restores the order it started from. */
  lemma {:induction false} UndoRestores(order: seq<Item>, steps: seq<MoveStep>)
    requires After(order, steps).Ok?
    ensures After(After(order, steps).value, InverseSteps(steps)) == Ok(order)
    decreases |steps|
  {
    if steps != [] {
      var moved := Moved(order, steps[0]);
      UndoRestores(moved, steps[1..]);
      MovedBack(order, steps[0]);
      AfterAppend(After(moved, steps[1..]).value, InverseSteps(steps[1..]),
                  MoveStep(steps[0].item, steps[0].to, steps[0].from));
    }
  }
}
