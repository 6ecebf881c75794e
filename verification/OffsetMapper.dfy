/**
 Streaming translation of byte offsets through an explicit text change set (`OffsetMapper` in
 src/application/text_reflow.rs, over the change sets of src/ports/editor/change.rs).
 */
module OffsetMapper {
  import opened Options

  datatype Affinity = Before | After

  /** A half-open byte range. */
  datatype Range = Range(start: nat, end: nat)

  /** One replacement, in the coordinates of the old and of the resulting document. */
  datatype Change = Change(oldRange: Range, newRange: Range)

  function OldEnd(changes: seq<Change>, k: nat): nat
    requires k <= |changes|
  {
    if k == 0 then 0 else changes[k - 1].oldRange.end
  }

  function NewEnd(changes: seq<Change>, k: nat): nat
    requires k <= |changes|
  {
    if k == 0 then 0 else changes[k - 1].newRange.end
  }

  /** Ordered, disjoint, and with gaps of equal length in both documents. */
  predicate ValidChange(changes: seq<Change>, k: nat)
    requires k < |changes|
  {
    var change := changes[k];
    && change.oldRange.start <= change.oldRange.end && change.newRange.start <= change.newRange.end
    && OldEnd(changes, k) <= change.oldRange.start && NewEnd(changes, k) <= change.newRange.start
    && change.oldRange.start - OldEnd(changes, k) == change.newRange.start - NewEnd(changes, k)
    && (k > 0 ==> changes[k - 1].oldRange.start < change.oldRange.start)
    && (k > 0 ==> changes[k - 1].newRange.start < change.newRange.start)
  }

  predicate ValidChanges(changes: seq<Change>) {
    forall k :: 0 <= k < |changes| ==> ValidChange(changes, k)
  }

  // ---------------------------------------------------------------------------------------------
  // One query from a given position in the change list

  function Edge(change: Change, affinity: Affinity): nat {
    match affinity
    case Before => change.newRange.start
    case After => change.newRange.end
  }

  /** The offset lies in the replaced text or at the insertion point. */
  predicate Inside(change: Change, offset: nat) {
    change.oldRange.start <= offset &&
    (offset < change.oldRange.end || (change.oldRange.start == change.oldRange.end == offset))
  }

  /** The offset lies behind the change, so a mapper moves past it. */
  predicate Behind(change: Change, offset: nat) {
    change.oldRange.end <= offset && (change.oldRange.start == change.oldRange.end ==> change.oldRange.end < offset)
  }

  /** The answer of a mapper that has already passed the first k changes. */
  function Answer(changes: seq<Change>, k: nat, offset: nat, affinity: Affinity): Option<nat>
    requires k <= |changes|
    decreases |changes| - k
  {
    if k < |changes| && Inside(changes[k], offset) then Some(Edge(changes[k], affinity))
    else if k < |changes| && changes[k].oldRange.start <= offset then Answer(changes, k + 1, offset, affinity)
    else if OldEnd(changes, k) <= offset then Some(NewEnd(changes, k) + (offset - OldEnd(changes, k)))
    else None
  }

  /** A fresh mapper, used for one query. */
  function Fresh(changes: seq<Change>, offset: nat, affinity: Affinity): Option<nat> {
    Answer(changes, 0, offset, affinity)
  }

  // ---------------------------------------------------------------------------------------------
  // The streaming mapper

  class Mapper {
    const changes: seq<Change>
    var index: nat
    var oldCursor: nat
    var newCursor: nat

    constructor (changes: seq<Change>)
      ensures this.changes == changes && Passed(0)
    {
      this.changes, index, oldCursor, newCursor := changes, 0, 0, 0;
    }

    /** The cursors stand behind the first `index` changes, all of which lie behind the offset. */
    predicate Passed(offset: nat)
      reads this
    {
      && index <= |changes| && oldCursor == OldEnd(changes, index) && newCursor == NewEnd(changes, index)
      && forall j :: 0 <= j < index ==> Behind(changes[j], offset)
    }

    /** One query. As long as queries do not decrease, the state left by earlier ones is invisible. */
    method Map(offset: nat, affinity: Affinity) returns (r: Option<nat>)
      requires ValidChanges(changes) && Passed(offset)
      modifies this
      ensures r == Fresh(changes, offset, affinity)
      ensures Passed(offset)
    {
      PassedIsInvisible(changes, index, offset, affinity);
      while index < |changes|
        invariant Passed(offset)
        invariant Fresh(changes, offset, affinity) == Answer(changes, index, offset, affinity)
      {
        var before, after := changes[index].oldRange, changes[index].newRange;
        if offset < before.start {
          if offset < oldCursor { return None; }
          return Some(newCursor + (offset - oldCursor));
        }
        if before.start == before.end && offset == before.start {
          return Some(match affinity { case Before => after.start case After => after.end });
        }
        if offset < before.end {
          return Some(match affinity { case Before => after.start case After => after.end });
        }
        oldCursor, newCursor, index := before.end, after.end, index + 1;
      }
      if offset < oldCursor { return None; }
      return Some(newCursor + (offset - oldCursor));
    }
  }

  lemma {:induction false} PassedIsInvisible(changes: seq<Change>, k: nat, offset: nat, affinity: Affinity)
    requires k <= |changes| && ValidChanges(changes) && forall j :: 0 <= j < k ==> Behind(changes[j], offset)
    ensures Fresh(changes, offset, affinity) == Answer(changes, k, offset, affinity)
  {
    if k > 0 {
      PassedIsInvisible(changes, k - 1, offset, affinity);
      assert Behind(changes[k - 1], offset) && ValidChange(changes, k - 1);
    }
  }

  // ---------------------------------------------------------------------------------------------
  // What the answers mean

  /** Total change of length of the first k changes. */
  function Growth(changes: seq<Change>, k: nat): int
    requires k <= |changes|
  {
    if k == 0 then 0
    else
      var change := changes[k - 1];
      Growth(changes, k - 1) + (change.newRange.end - change.newRange.start)
                             - (change.oldRange.end - change.oldRange.start)
  }

  lemma {:induction false} CursorsDifferByGrowth(changes: seq<Change>, k: nat)
    requires ValidChanges(changes) && k <= |changes|
    ensures NewEnd(changes, k) - OldEnd(changes, k) == Growth(changes, k)
  {
    if k > 0 {
      CursorsDifferByGrowth(changes, k - 1);
      assert ValidChange(changes, k - 1);
    }
  }

  /** The first n changes lie behind the offset, and it does not reach the text after change n. */
  predicate Located(changes: seq<Change>, n: nat, offset: nat) {
    && n <= |changes| && (forall j :: 0 <= j < n ==> Behind(changes[j], offset))
    && (n < |changes| ==> offset < changes[n].oldRange.start || Inside(changes[n], offset))
  }

  /** The place of an offset among the changes. */
  function Place(changes: seq<Change>, k: nat, offset: nat): (n: nat)
    requires k <= |changes| && forall j :: 0 <= j < k ==> Behind(changes[j], offset)
    ensures k <= n && Located(changes, n, offset)
    decreases |changes| - k
  {
    if k == |changes| || !Behind(changes[k], offset) then k else Place(changes, k + 1, offset)
  }

  lemma EndsIncrease(changes: seq<Change>, i: nat, j: nat)
    requires ValidChanges(changes) && i <= j <= |changes|
    ensures OldEnd(changes, i) <= OldEnd(changes, j) && NewEnd(changes, i) <= NewEnd(changes, j)
    decreases j - i
  {
    if i < j {
      EndsIncrease(changes, i, j - 1);
      assert ValidChange(changes, j - 1);
    }
  }

  /** Every offset is answered: by an edge inside a change, and by the cursors elsewhere. */
  lemma AnswerAtPlace(changes: seq<Change>, n: nat, offset: nat, affinity: Affinity)
    requires ValidChanges(changes) && Located(changes, n, offset)
    ensures OldEnd(changes, n) <= offset
    ensures Fresh(changes, offset, affinity) ==
            Some(if n < |changes| && Inside(changes[n], offset) then Edge(changes[n], affinity)
                 else NewEnd(changes, n) + (offset - OldEnd(changes, n)))
  {
    PassedIsInvisible(changes, n, offset, affinity);
    if n > 0 { assert Behind(changes[n - 1], offset); }
  }

  /** Outside every change the answer is the offset plus the length changes before it. */
  lemma OutsideChangesOnlyShifts(changes: seq<Change>, offset: nat, affinity: Affinity) returns (n: nat)
    requires ValidChanges(changes)
    requires forall k :: 0 <= k < |changes| ==> !Inside(changes[k], offset)
    ensures n <= |changes|
    ensures forall k :: 0 <= k < |changes| ==> (k < n <==> changes[k].oldRange.start <= offset)
    ensures Fresh(changes, offset, affinity).Some?
    ensures Fresh(changes, offset, affinity).value == offset + Growth(changes, n)
  {
    n := Place(changes, 0, offset);
    AnswerAtPlace(changes, n, offset, affinity);
    CursorsDifferByGrowth(changes, n);
    forall k | n <= k < |changes|
      ensures offset < changes[k].oldRange.start
    {
      EndsIncrease(changes, n + 1, k + 1);
      StartsIncrease(changes, n, k);
    }
    forall k | 0 <= k < n
      ensures changes[k].oldRange.start <= offset
    {
      assert ValidChange(changes, k) && Behind(changes[k], offset);
    }
  }

  lemma StartsIncrease(changes: seq<Change>, i: nat, j: nat)
    requires ValidChanges(changes) && i <= j < |changes|
    ensures changes[i].oldRange.start <= changes[j].oldRange.start
    decreases j - i
  {
    if i < j {
      StartsIncrease(changes, i, j - 1);
      assert ValidChange(changes, j);
    }
  }

  /** An answer lies between the ends of the change before it and of the change it may lie in. */
  lemma AnswerBounds(changes: seq<Change>, n: nat, offset: nat, affinity: Affinity)
    requires ValidChanges(changes) && Located(changes, n, offset)
    ensures Fresh(changes, offset, affinity).Some? && NewEnd(changes, n) <= Fresh(changes, offset, affinity).value
    ensures n < |changes| ==> Fresh(changes, offset, affinity).value <= NewEnd(changes, n + 1)
  {
    AnswerAtPlace(changes, n, offset, affinity);
    if n < |changes| { assert ValidChange(changes, n); }
  }

  /** Answers respect the order of offsets for equal affinity. */
  lemma AnswersAreMonotone(changes: seq<Change>, low: nat, high: nat, affinity: Affinity)
    requires ValidChanges(changes) && low <= high
    ensures Fresh(changes, low, affinity).Some? && Fresh(changes, high, affinity).Some?
    ensures Fresh(changes, low, affinity).value <= Fresh(changes, high, affinity).value
  {
    var m, n := Place(changes, 0, low), Place(changes, 0, high);
    AnswerBounds(changes, m, low, affinity);
    AnswerBounds(changes, n, high, affinity);
    AnswerAtPlace(changes, m, low, affinity);
    AnswerAtPlace(changes, n, high, affinity);
    if n < m {
      PlacesIncrease(changes, m, n, low, high);
    } else if m < n {
      EndsIncrease(changes, m + 1, n);
    } else if m < |changes| {
      assert ValidChange(changes, m);
    }
  }

  lemma PlacesIncrease(changes: seq<Change>, m: nat, n: nat, low: nat, high: nat)
    requires ValidChanges(changes) && Located(changes, m, low) && Located(changes, n, high) && low <= high
    ensures m <= n
  {
    assert n < |changes| ==> ValidChange(changes, n);
    assert n < m ==> Behind(changes[n], low);
  }

  /** At one offset, `Before` never answers behind `After`. */
  lemma BeforeIsNotBehindAfter(changes: seq<Change>, offset: nat)
    requires ValidChanges(changes)
    ensures Fresh(changes, offset, Before).Some? && Fresh(changes, offset, After).Some?
    ensures Fresh(changes, offset, Before).value <= Fresh(changes, offset, After).value
  {
    var n := Place(changes, 0, offset);
    AnswerAtPlace(changes, n, offset, Before);
    AnswerAtPlace(changes, n, offset, After);
    if n < |changes| { assert ValidChange(changes, n); }
  }

  /** An offset can lie in one change only, and then that is its place. */
  lemma InsideIsPlace(changes: seq<Change>, k: nat, offset: nat)
    requires ValidChanges(changes) && k < |changes| && Inside(changes[k], offset)
    ensures Located(changes, k, offset)
  {
    forall j | 0 <= j < k
      ensures Behind(changes[j], offset)
    {
      EndsIncrease(changes, j + 1, k);
      StartsIncrease(changes, j + 1, k);
      assert ValidChange(changes, j) && ValidChange(changes, j + 1) && ValidChange(changes, k);
    }
  }

  /** In replaced text and at an insertion the answer is an end of the new text, the one that the affinity names. */
  lemma InsideAnswersAnEnd(changes: seq<Change>, k: nat, offset: nat)
    requires ValidChanges(changes) && k < |changes| && Inside(changes[k], offset)
    ensures Fresh(changes, offset, Before) == Some(changes[k].newRange.start)
    ensures Fresh(changes, offset, After) == Some(changes[k].newRange.end)
  {
    InsideIsPlace(changes, k, offset);
    AnswerAtPlace(changes, k, offset, Before);
    AnswerAtPlace(changes, k, offset, After);
  }

  // ---------------------------------------------------------------------------------------------
  // What the answers mean for the text

  /** The start of change k in both documents, their ends for k past the last change. */
  function OldStart(before: string, changes: seq<Change>, k: nat): nat
    requires k <= |changes|
  {
    if k < |changes| then changes[k].oldRange.start else |before|
  }

  /** Between two changes, and behind the last one, both documents hold the same text. */
  ghost predicate SameGaps(before: string, after: string, changes: seq<Change>) {
    forall k :: 0 <= k <= |changes| ==> SameGap(before, after, changes, k)
  }

  predicate SameGap(before: string, after: string, changes: seq<Change>, k: nat)
    requires k <= |changes|
  {
    var from, to := OldEnd(changes, k), NewEnd(changes, k);
    var length := OldStart(before, changes, k) - from;
    && 0 <= length && from + length <= |before| && to + length <= |after|
    && before[from..from + length] == after[to..to + length]
  }

  /** A byte outside every change is found again where the mapper says. */
  lemma TextIsFoundAgain(before: string, after: string, changes: seq<Change>, offset: nat, affinity: Affinity)
    requires ValidChanges(changes) && SameGaps(before, after, changes) && offset < |before|
    requires forall k :: 0 <= k < |changes| ==> !Inside(changes[k], offset)
    ensures var mapped := Fresh(changes, offset, affinity);
            mapped.Some? && mapped.value < |after| && after[mapped.value] == before[offset]
  {
    var n := Place(changes, 0, offset);
    AnswerAtPlace(changes, n, offset, affinity);
    assert SameGap(before, after, changes, n);
    var from, to := OldEnd(changes, n), NewEnd(changes, n);
    var length := OldStart(before, changes, n) - from;
    assert before[from..from + length][offset - from] == after[to..to + length][offset - from];
  }

  predicate Covers(range: Range, place: nat) { range.start <= place < range.end }

  /**
   * The two answers inside a change enclose its new text and nothing else: right before the one ends the text that
   * was before the change, right behind the other starts the text that was behind it, and a byte of the result is
   * between them exactly if it is of the replacement.
   */
  lemma AnswersEncloseReplacement(before: string, after: string, changes: seq<Change>, k: nat, offset: nat)
    requires ValidChanges(changes) && SameGaps(before, after, changes) && k < |changes| && Inside(changes[k], offset)
    ensures var from, to := Fresh(changes, offset, Before), Fresh(changes, offset, After);
            && from.Some? && to.Some? && from.value <= to.value <= |after|
            && (forall q :: Covers(Range(from.value, to.value), q) <==> Covers(changes[k].newRange, q))
            && var replaced := changes[k].oldRange;
               var left := replaced.start - OldEnd(changes, k);
               var right := OldStart(before, changes, k + 1) - replaced.end;
               && 0 <= left <= from.value && 0 <= right && to.value + right <= |after|
               && replaced.end + right <= |before|
               && after[from.value - left..from.value] == before[replaced.start - left..replaced.start]
               && after[to.value..to.value + right] == before[replaced.end..replaced.end + right]
  {
    InsideAnswersAnEnd(changes, k, offset);
    assert ValidChange(changes, k) && SameGap(before, after, changes, k) && SameGap(before, after, changes, k + 1);
  }

  /** No change touches the inside of the range. */
  predicate Clear(change: Change, range: Range) {
    change.oldRange.end <= range.start || range.end <= change.oldRange.start
  }

  function ClearPrefix(changes: seq<Change>, k: nat, range: Range): (n: nat)
    requires k <= |changes| && forall j :: 0 <= j < k ==> changes[j].oldRange.end <= range.start
    ensures k <= n <= |changes| && (forall j :: 0 <= j < n ==> changes[j].oldRange.end <= range.start)
    ensures n < |changes| ==> range.start < changes[n].oldRange.end
    decreases |changes| - k
  {
    if k == |changes| || range.start < changes[k].oldRange.end then k else ClearPrefix(changes, k + 1, range)
  }

  /** An insertion exactly at the start of the range answers with its own end. */
  lemma StartOfClearRange(changes: seq<Change>, n: nat, range: Range)
    requires ValidChanges(changes) && range.start < range.end && n == ClearPrefix(changes, 0, range)
    requires n < |changes| ==> Clear(changes[n], range)
    ensures OldEnd(changes, n) <= range.start
    ensures Fresh(changes, range.start, After) == Some(NewEnd(changes, n) + (range.start - OldEnd(changes, n)))
  {
    if n > 0 && Inside(changes[n - 1], range.start) {
      InsideAnswersAnEnd(changes, n - 1, range.start);
    } else {
      forall j | 0 <= j < n
        ensures Behind(changes[j], range.start)
      {
        EarlierIsBehind(changes, j, n - 1, range.start);
      }
      AnswerAtPlace(changes, n, range.start, After);
    }
  }

  lemma EarlierIsBehind(changes: seq<Change>, j: nat, n: nat, offset: nat)
    requires ValidChanges(changes) && j <= n < |changes| && changes[n].oldRange.end <= offset
    requires j == n ==> !Inside(changes[n], offset)
    ensures Behind(changes[j], offset)
  {
    assert ValidChange(changes, j) && ValidChange(changes, n);
    if j < n {
      assert ValidChange(changes, j + 1);
      StartsIncrease(changes, j + 1, n);
    }
  }

  lemma EndOfClearRange(changes: seq<Change>, n: nat, range: Range)
    requires ValidChanges(changes) && range.start < range.end && n == ClearPrefix(changes, 0, range)
    requires n < |changes| ==> Clear(changes[n], range)
    ensures OldEnd(changes, n) <= range.end
    ensures Fresh(changes, range.end, Before) == Some(NewEnd(changes, n) + (range.end - OldEnd(changes, n)))
  {
    forall j | 0 <= j < n
      ensures Behind(changes[j], range.end)
    {
    }
    assert n < |changes| ==> ValidChange(changes, n);
    AnswerAtPlace(changes, n, range.end, Before);
  }

  /** A range that no change touches keeps its text, whatever is inserted at its edges. */
  lemma UntouchedRangeKeepsItsText(before: string, after: string, changes: seq<Change>, range: Range)
    requires ValidChanges(changes) && SameGaps(before, after, changes)
    requires range.start < range.end <= |before| && forall k :: 0 <= k < |changes| ==> Clear(changes[k], range)
    ensures var start, end := Fresh(changes, range.start, After), Fresh(changes, range.end, Before);
            && start.Some? && end.Some? && start.value <= end.value <= |after|
            && after[start.value..end.value] == before[range.start..range.end]
  {
    var n := ClearPrefix(changes, 0, range);
    StartOfClearRange(changes, n, range);
    EndOfClearRange(changes, n, range);
    assert SameGap(before, after, changes, n);
    var from, to := OldEnd(changes, n), NewEnd(changes, n);
    var length := OldStart(before, changes, n) - from;
    assert n < |changes| ==> Clear(changes[n], range);
    SameSlices(before, after, from, to, length, range.start - from, range.end - from);
  }

  lemma SameSlices(before: string, after: string, from: nat, to: nat, length: nat, start: nat, end: nat)
    requires from + length <= |before| && to + length <= |after| && start <= end <= length
    requires before[from..from + length] == after[to..to + length]
    ensures before[from + start..from + end] == after[to + start..to + end]
  {
    SliceOfSlice(before, from, from + length, start, end);
    SliceOfSlice(after, to, to + length, start, end);
  }

  lemma SliceOfSlice(text: string, from: nat, to: nat, start: nat, end: nat)
    requires from <= to <= |text| && start <= end <= to - from
    ensures text[from..to][start..end] == text[from + start..from + end]
  {
    assert forall k :: 0 <= k < end - start ==> text[from..to][start..end][k] == text[from + start..from + end][k];
  }

  // ---------------------------------------------------------------------------------------------
  // Annotations carried through the changes

  /** A large paste was reformatted in isolation and is measured again; any other annotation keeps its exact text. */
  datatype Annotation = Annotation(range: Range, large: bool)

  /** An annotation of the result and the index of the one it comes from. */
  datatype Kept = Kept(origin: nat, annotation: Annotation)

  /** What a reformatting produced: the new text, its changes, and the old and new range of each large paste. */
  datatype Reflowed = Reflowed(content: string, changes: seq<Change>, isolated: seq<(Range, Range)>)

  /** Ranges as `validate_annotations` accepts them: not empty, in the text, ordered and disjoint. */
  predicate Ordered(content: string, annotations: seq<Annotation>) {
    && (forall i :: 0 <= i < |annotations| ==>
          annotations[i].range.start < annotations[i].range.end <= |content|)
    && (forall i, j :: 0 <= i < j < |annotations| ==> annotations[i].range.end <= annotations[j].range.start)
  }

  function LargeCount(annotations: seq<Annotation>): nat {
    if annotations == [] then 0
    else LargeCount(annotations[..|annotations| - 1]) + if annotations[|annotations| - 1].large then 1 else 0
  }

  function Slice(text: string, range: Range): Option<string> {
    if range.start <= range.end <= |text| then Some(text[range.start..range.end]) else None
  }

  /** One annotation carried on its own, with fresh mappers: `None` is an error, an empty list a dropped paste. */
  function CarryOne(content: string, reflowed: Reflowed, stillLarge: string -> bool,
                    used: nat, index: nat, annotation: Annotation): Option<seq<Kept>>
  {
    if annotation.large then
      if used < |reflowed.isolated| && reflowed.isolated[used].0 == annotation.range then
        var target := reflowed.isolated[used].1;
        var text := Slice(reflowed.content, target);
        if text.Some? && text.value != "" && stillLarge(text.value) then Some([Kept(index, Annotation(target, true))])
        else Some([])
      else None
    else
      var start := Fresh(reflowed.changes, annotation.range.start, After);
      var end := Fresh(reflowed.changes, annotation.range.end, Before);
      if start == None || end == None then None
      else
        var target := Range(start.value, end.value);
        if Slice(content, annotation.range) == None ||
           Slice(content, annotation.range) != Slice(reflowed.content, target) then None
        else Some([Kept(index, Annotation(target, false))])
  }

  /** All annotations, each carried on its own. */
  function CarryAll(content: string, reflowed: Reflowed, stillLarge: string -> bool, annotations: seq<Annotation>)
    : Option<seq<Kept>>
  {
    if annotations == [] then Some([])
    else
      var n := |annotations| - 1;
      var rest := CarryAll(content, reflowed, stillLarge, annotations[..n]);
      var last := CarryOne(content, reflowed, stillLarge, LargeCount(annotations[..n]), n, annotations[n]);
      if rest.Some? && last.Some? then Some(rest.value + last.value) else None
  }

  lemma {:induction false} ErrorsStay(content: string, reflowed: Reflowed, stillLarge: string -> bool,
                                      annotations: seq<Annotation>, n: nat)
    requires n <= |annotations| && CarryAll(content, reflowed, stillLarge, annotations[..n]) == None
    ensures CarryAll(content, reflowed, stillLarge, annotations) == None
    decreases |annotations| - n
  {
    if n < |annotations| {
      assert annotations[..n + 1][..n] == annotations[..n];
      ErrorsStay(content, reflowed, stillLarge, annotations, n + 1);
    } else {
      assert annotations[..n] == annotations;
    }
  }

  /** What a carried annotation is: the same text elsewhere, or a paste that is still large after its reformatting. */
  predicate RightlyKept(content: string, reflowed: Reflowed, stillLarge: string -> bool, annotations: seq<Annotation>,
                        kept: Kept)
  {
    kept.origin < |annotations| &&
    var from, now := annotations[kept.origin], kept.annotation;
    && now.large == from.large && now.range.start <= now.range.end <= |reflowed.content|
    && (var text := reflowed.content[now.range.start..now.range.end];
        if from.large then
          var used := LargeCount(annotations[..kept.origin]);
          used < |reflowed.isolated| && reflowed.isolated[used] == (from.range, now.range) && text != ""
          && stillLarge(text)
        else
          from.range.start <= from.range.end <= |content| && text == content[from.range.start..from.range.end])
  }

  /** Whether an annotation has to be in the result. */
  predicate MustStay(content: string, reflowed: Reflowed, stillLarge: string -> bool, annotations: seq<Annotation>,
                     i: nat)
    requires i < |annotations|
  {
    annotations[i].large ==>
      var used := LargeCount(annotations[..i]);
      used < |reflowed.isolated| &&
      var text := Slice(reflowed.content, reflowed.isolated[used].1);
      text.Some? && text.value != "" && stillLarge(text.value)
  }

  predicate IsKept(kept: seq<Kept>, i: nat) { exists k :: 0 <= k < |kept| && kept[k].origin == i }

  lemma PrefixPlaces(content: string, reflowed: Reflowed, stillLarge: string -> bool, annotations: seq<Annotation>,
                     n: nat)
    requires n <= |annotations|
    ensures forall kept ::
              RightlyKept(content, reflowed, stillLarge, annotations[..n], kept) <==>
              RightlyKept(content, reflowed, stillLarge, annotations, kept) && kept.origin < n
    ensures forall i :: 0 <= i < n ==>
              (MustStay(content, reflowed, stillLarge, annotations[..n], i) <==>
               MustStay(content, reflowed, stillLarge, annotations, i))
  {
    assert forall i :: 0 <= i <= n ==> annotations[..n][..i] == annotations[..i];
  }

  lemma OneIsRight(content: string, reflowed: Reflowed, stillLarge: string -> bool, annotations: seq<Annotation>,
                   n: nat)
    requires n < |annotations|
    ensures var one := CarryOne(content, reflowed, stillLarge, LargeCount(annotations[..n]), n, annotations[n]);
            one.Some? ==>
              && (if MustStay(content, reflowed, stillLarge, annotations, n) then |one.value| == 1 else one.value == [])
              && forall k :: 0 <= k < |one.value| ==>
                   one.value[k].origin == n &&
                   RightlyKept(content, reflowed, stillLarge, annotations, one.value[k])
  {
  }

  /** The result has exactly the annotations that stay, in order, each with its own text. */
  lemma {:induction false} CarriedAreRight(content: string, reflowed: Reflowed, stillLarge: string -> bool,
                                           annotations: seq<Annotation>)
    requires CarryAll(content, reflowed, stillLarge, annotations).Some?
    ensures var kept := CarryAll(content, reflowed, stillLarge, annotations).value;
            && (forall k :: 0 <= k < |kept| ==> RightlyKept(content, reflowed, stillLarge, annotations, kept[k]))
            && (forall j, k :: 0 <= j < k < |kept| ==> kept[j].origin < kept[k].origin)
            && (forall i :: 0 <= i < |annotations| ==>
                  (IsKept(kept, i) <==> MustStay(content, reflowed, stillLarge, annotations, i)))
  {
    if annotations != [] {
      var n := |annotations| - 1;
      CarriedAreRight(content, reflowed, stillLarge, annotations[..n]);
      PrefixPlaces(content, reflowed, stillLarge, annotations, n);
      OneIsRight(content, reflowed, stillLarge, annotations, n);
      var rest := CarryAll(content, reflowed, stillLarge, annotations[..n]).value;
      var last := CarryOne(content, reflowed, stillLarge, LargeCount(annotations[..n]), n, annotations[n]).value;
      KeptBehind(rest, last, n);
    }
  }

  lemma KeptBehind(rest: seq<Kept>, last: seq<Kept>, n: nat)
    requires forall k :: 0 <= k < |rest| ==> rest[k].origin < n
    requires forall k :: 0 <= k < |last| ==> last[k].origin == n
    ensures forall i: nat :: i < n ==> (IsKept(rest + last, i) <==> IsKept(rest, i))
    ensures IsKept(rest + last, n) <==> last != []
  {
    forall i: nat | i < n
      ensures IsKept(rest + last, i) <==> IsKept(rest, i)
    {
      if k :| 0 <= k < |rest| && rest[k].origin == i { assert (rest + last)[k].origin == i; }
    }
    if last != [] { assert (rest + last)[|rest|].origin == n; }
  }

  /** The isolated pastes are the large ones, in order. */
  predicate PastesMatch(reflowed: Reflowed, annotations: seq<Annotation>) {
    forall i :: 0 <= i < |annotations| && annotations[i].large ==>
      LargeCount(annotations[..i]) < |reflowed.isolated| &&
      reflowed.isolated[LargeCount(annotations[..i])].0 == annotations[i].range
  }

  /** Annotations that no change touches are carried, all of them, if the isolated pastes are the large ones. */
  lemma {:induction false} UntouchedAreCarried(content: string, reflowed: Reflowed, stillLarge: string -> bool,
                                               annotations: seq<Annotation>)
    requires ValidChanges(reflowed.changes) && SameGaps(content, reflowed.content, reflowed.changes)
    requires Ordered(content, annotations) && PastesMatch(reflowed, annotations)
    requires forall i, k :: 0 <= i < |annotations| && !annotations[i].large && 0 <= k < |reflowed.changes| ==>
               Clear(reflowed.changes[k], annotations[i].range)
    ensures CarryAll(content, reflowed, stillLarge, annotations).Some?
  {
    if annotations != [] {
      var n := |annotations| - 1;
      assert forall i :: 0 <= i < n ==> annotations[..n][..i] == annotations[..i];
      UntouchedAreCarried(content, reflowed, stillLarge, annotations[..n]);
      if !annotations[n].large {
        UntouchedRangeKeepsItsText(content, reflowed.content, reflowed.changes, annotations[n].range);
      }
    }
  }

  function Targets(kept: seq<Kept>): seq<Annotation> {
    seq(|kept|, i requires 0 <= i < |kept| => kept[i].annotation)
  }

  /** The carried annotations, if no isolated paste is left over and the result is a valid list. */
  function Accepted(content: string, reflowed: Reflowed, stillLarge: string -> bool, annotations: seq<Annotation>)
    : Option<seq<Kept>>
  {
    var all := CarryAll(content, reflowed, stillLarge, annotations);
    if all.Some? && LargeCount(annotations) == |reflowed.isolated| && Ordered(reflowed.content, Targets(all.value))
    then all else None
  }

  /** Both edges of a range, each with its affinity. */
  method MapBoth(mapper: Mapper, range: Range) returns (start: Option<nat>, end: Option<nat>)
    requires ValidChanges(mapper.changes) && range.start <= range.end && mapper.Passed(range.start)
    modifies mapper
    ensures start == Fresh(mapper.changes, range.start, After) && end == Fresh(mapper.changes, range.end, Before)
    ensures forall offset: nat :: range.end <= offset ==> mapper.Passed(offset)
  {
    start := mapper.Map(range.start, After);
    assert mapper.Passed(range.end);
    end := mapper.Map(range.end, Before);
  }

  /** The loop of `reflow_annotations`: one mapper serves all queries, one cursor walks the isolated pastes. */
  method ReflowAnnotations(content: string, reflowed: Reflowed, stillLarge: string -> bool,
                           annotations: seq<Annotation>)
    returns (r: Option<seq<Kept>>)
    requires ValidChanges(reflowed.changes) && Ordered(content, annotations)
    ensures r == Accepted(content, reflowed, stillLarge, annotations)
  {
    var mapper := new Mapper(reflowed.changes);
    var kept, used := [], 0;
    for i := 0 to |annotations|
      invariant mapper.changes == reflowed.changes && fresh(mapper)
      invariant forall offset :: (if i == 0 then 0 else annotations[i - 1].range.end) <= offset ==>
                  mapper.Passed(offset)
      invariant used == LargeCount(annotations[..i]) <= |reflowed.isolated|
      invariant CarryAll(content, reflowed, stillLarge, annotations[..i]) == Some(kept)
    {
      var annotation := annotations[i];
      assert annotations[..i + 1][..i] == annotations[..i];
      if annotation.large {
        if used >= |reflowed.isolated| || reflowed.isolated[used].0 != annotation.range {
          ErrorsStay(content, reflowed, stillLarge, annotations, i + 1);
          return None;
        }
        var target := reflowed.isolated[used].1;
        used := used + 1;
        var text := Slice(reflowed.content, target);
        assert kept + [] == kept;
        if text.Some? && text.value != "" && stillLarge(text.value) {
          kept := kept + [Kept(i, Annotation(target, true))];
        }
      } else {
        var start, end := MapBoth(mapper, annotation.range);
        if start == None || end == None
           || Slice(content, annotation.range) == None
           || Slice(content, annotation.range) != Slice(reflowed.content, Range(start.value, end.value)) {
          ErrorsStay(content, reflowed, stillLarge, annotations, i + 1);
          return None;
        }
        kept := kept + [Kept(i, Annotation(Range(start.value, end.value), false))];
      }
    }
    assert annotations[..|annotations|] == annotations;
    if used < |reflowed.isolated| { return None; }
    if !Ordered(reflowed.content, Targets(kept)) { return None; }
    r := Some(kept);
  }
}
