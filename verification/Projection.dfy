/**
 * The board presentation: annotated ranges of canonical text are folded into labels, and byte offsets
 * are carried between the canonical text and the text shown. Texts are UTF-8 byte sequences.
 */
module Projection {
  import opened Options

  type Byte = b: int | 0 <= b < 256 witness 0

  type Text = seq<Byte>

  const SPACE: Byte := 0x20

  // ---------------------------------------------------------------------------------------------
  // Annotations

  datatype Kind =
    | Attachment(image: bool, ordinal: Option<nat>)
    | LargePaste(lines: nat, graphemes: nat)
    | InvocationReference(displayName: Text)
    | ShortcutEmphasis

  datatype Annotation = Annotation(start: nat, end: nat, kind: Kind)

  datatype Health = Available | InCloud | Downloading | Inaccessible

  /** A UTF-8 continuation byte never starts a character. */
  predicate CharBoundary(content: Text, i: nat) {
    i == 0 || i == |content| || (i < |content| && !(0x80 <= content[i] < 0xC0))
  }

  /** The domain rules that fix an annotation's place; of a reference's label only that it starts with '@'. */
  predicate ValidAnnotation(content: Text, annotation: Annotation, previousEnd: nat) {
    && previousEnd <= annotation.start < annotation.end <= |content|
    && CharBoundary(content, annotation.start) && CharBoundary(content, annotation.end)
    && (annotation.kind.InvocationReference? ==>
          annotation.kind.displayName != [] && annotation.kind.displayName[0] == 0x40)
  }

  function EndBefore(annotations: seq<Annotation>, i: nat): nat
    requires i <= |annotations|
  {
    if i == 0 then 0 else annotations[i - 1].end
  }

  predicate ValidAnnotations(content: Text, annotations: seq<Annotation>) {
    forall i {:trigger EndBefore(annotations, i)} :: 0 <= i < |annotations| ==>
      ValidAnnotation(content, annotations[i], EndBefore(annotations, i))
  }

  /**
   * The annotations with the wording used to show them: the label of a collapsed range, and the remark
   * behind an expanded one. `BoardWording` has the words of the board.
   */
  datatype Notes = Notes(list: seq<Annotation>, title: (Kind, Health) -> Option<Text>, remark: Health -> Text)

  predicate Unnumbered(kind: Kind) { kind.Attachment? && kind.ordinal.None? }

  /** All that layout needs of the wording. */
  ghost predicate Sound(notes: Notes) {
    && (forall health :: notes.remark(health) == [] <==> health == Available)
    && (forall health :: notes.remark(health) != [] ==> notes.remark(health)[0] == SPACE)
    && (forall kind, health :: notes.title(kind, health).None? <==> Unnumbered(kind))
    && (forall kind, health :: notes.title(kind, health) == Some([]) ==>
          kind.ShortcutEmphasis? || kind == InvocationReference([]))
  }

  // ---------------------------------------------------------------------------------------------
  // Folds

  /** One substituted range; the shown text of the range proper ends at `contentEnd`. */
  datatype Fold = Fold(index: nat, start: nat, end: nat, contentEnd: nat, canonicalStart: nat, canonicalEnd: nat,
                       collapsed: bool, health: Health)

  /** The text shown in place of a fold: its label, or its own text and a remark on its health. */
  predicate ShowsItsRange(content: Text, notes: Notes, shown: Text, fold: Fold) {
    && fold.index < |notes.list| && fold.end <= |shown| && fold.start <= fold.contentEnd <= fold.end
    && fold.canonicalStart < fold.canonicalEnd <= |content|
    && fold.canonicalStart == notes.list[fold.index].start && fold.canonicalEnd == notes.list[fold.index].end
    && (if fold.collapsed then
          && fold.contentEnd == fold.end && fold.start < fold.end
          && notes.title(notes.list[fold.index].kind, fold.health) == Some(shown[fold.start..fold.end])
        else
          && shown[fold.start..fold.contentEnd] == content[fold.canonicalStart..fold.canonicalEnd]
          && shown[fold.contentEnd..fold.end] == notes.remark(fold.health))
  }

  /**
   * From canonical offset `c` and shown offset `d` on, `shown` is `content` with every fold replaced:
   * equal texts between the folds, and each fold shows what it stands for.
   */
  predicate Laid(content: Text, notes: Notes, shown: Text, folds: seq<Fold>, c: nat, d: nat) {
    if folds == [] then
      c <= |content| && d <= |shown| && shown[d..] == content[c..]
    else
      var fold := folds[0];
      && c <= fold.canonicalStart && d <= fold.start
      && ShowsItsRange(content, notes, shown, fold)
      && shown[d..fold.start] == content[c..fold.canonicalStart]
      && Laid(content, notes, shown, folds[1..], fold.canonicalEnd, fold.end)
  }

  /** What a fold was made from. */
  datatype Origin = Origin(index: nat, collapsed: bool, health: Health)

  function OriginOf(fold: Fold): Origin { Origin(fold.index, fold.collapsed, fold.health) }

  function Origins(folds: seq<Fold>): seq<Origin> {
    seq(|folds|, i requires 0 <= i < |folds| => OriginOf(folds[i]))
  }

  function HealthOf(annotations: seq<Annotation>, health: nat -> Health, i: nat): Health
    requires i < |annotations|
  {
    if annotations[i].kind.Attachment? then health(i) else Available
  }

  /** Every annotation but a style becomes a fold, in order. */
  function Wanted(annotations: seq<Annotation>, expanded: seq<nat>, health: nat -> Health, n: nat): seq<Origin>
    requires n <= |annotations|
  {
    if n == 0 then [] else
    var before := Wanted(annotations, expanded, health, n - 1);
    if annotations[n - 1].kind.ShortcutEmphasis? then before
    else before + [Origin(n - 1, n - 1 !in expanded, HealthOf(annotations, health, n - 1))]
  }

  /** The fold of an annotation, if there is one. */
  ghost predicate HasFold(origins: seq<Origin>, k: nat, i: nat) { k < |origins| && origins[k].index == i }

  /**
   * Every annotation but a style has one fold, in the order of the annotations: collapsed exactly unless it is
   * expanded, and with the health of its attachment, if it is one.
   */
  lemma {:induction false} FoldsAreWanted(annotations: seq<Annotation>, expanded: seq<nat>, health: nat -> Health,
                                          n: nat)
    requires n <= |annotations|
    ensures var origins := Wanted(annotations, expanded, health, n);
            && (forall i: nat :: i < n ==>
                  ((exists k: nat :: HasFold(origins, k, i)) <==> !annotations[i].kind.ShortcutEmphasis?))
            && (forall j, k :: 0 <= j < k < |origins| ==> origins[j].index < origins[k].index)
            && forall k :: 0 <= k < |origins| ==>
                 && origins[k].index < n && (origins[k].collapsed <==> origins[k].index !in expanded)
                 && origins[k].health == if annotations[origins[k].index].kind.Attachment? then health(origins[k].index)
                                         else Available
  {
    if n > 0 {
      var before, origins := Wanted(annotations, expanded, health, n - 1), Wanted(annotations, expanded, health, n);
      FoldsAreWanted(annotations, expanded, health, n - 1);
      forall i: nat | i < n
        ensures (exists k: nat :: HasFold(origins, k, i)) <==> !annotations[i].kind.ShortcutEmphasis?
      {
        if k: nat :| HasFold(before, k, i) { assert HasFold(origins, k, i); }
        if i == n - 1 && !annotations[i].kind.ShortcutEmphasis? { assert HasFold(origins, |before|, i); }
        if k: nat :| HasFold(origins, k, i) {
          if k < |before| { assert HasFold(before, k, i); }
        }
      }
    }
  }

  /** A collapsed attachment must have been numbered. */
  predicate Numbered(annotations: seq<Annotation>, expanded: seq<nat>, n: nat)
    requires n <= |annotations|
  {
    forall i :: 0 <= i < n && annotations[i].kind.Attachment? && i !in expanded ==> annotations[i].kind.ordinal.Some?
  }

  // ---------------------------------------------------------------------------------------------
  // Laying out grows at the end

  lemma {:induction false} LaidText(content: Text, notes: Notes, shown: Text, folds: seq<Fold>,
                                    c: nat, d: nat, text: Text)
    requires Laid(content, notes, shown, folds, c, d)
    ensures Laid(content + text, notes, shown + text, folds, c, d)
    decreases |folds|
  {
    if folds == [] {
      assert (shown + text)[d..] == shown[d..] + text;
      assert (content + text)[c..] == content[c..] + text;
    } else {
      var fold := folds[0];
      FirstStillLaid(content, notes, shown, fold, c, d, text, text);
      LaidText(content, notes, shown, folds[1..], fold.canonicalEnd, fold.end, text);
    }
  }

  lemma StillShown(content: Text, notes: Notes, shown: Text, fold: Fold, more: Text, moreShown: Text)
    requires ShowsItsRange(content, notes, shown, fold)
    ensures ShowsItsRange(content + more, notes, shown + moreShown, fold)
  {
    assert (shown + moreShown)[fold.start..fold.end] == shown[fold.start..fold.end];
    assert (shown + moreShown)[fold.start..fold.contentEnd] == shown[fold.start..fold.contentEnd];
    assert (shown + moreShown)[fold.contentEnd..fold.end] == shown[fold.contentEnd..fold.end];
    assert (content + more)[fold.canonicalStart..fold.canonicalEnd]
        == content[fold.canonicalStart..fold.canonicalEnd];
  }

  lemma FirstStillLaid(content: Text, notes: Notes, shown: Text, fold: Fold, c: nat, d: nat,
                       more: Text, moreShown: Text)
    requires ShowsItsRange(content, notes, shown, fold) && c <= fold.canonicalStart && d <= fold.start
    ensures ShowsItsRange(content + more, notes, shown + moreShown, fold)
    ensures (shown + moreShown)[d..fold.start] == shown[d..fold.start]
    ensures (content + more)[c..fold.canonicalStart] == content[c..fold.canonicalStart]
  {
    StillShown(content, notes, shown, fold, more, moreShown);
  }

  lemma {:induction false} LaidFold(content: Text, notes: Notes, shown: Text, folds: seq<Fold>,
                                    c: nat, d: nat, more: Text, moreShown: Text, last: Fold)
    requires Laid(content, notes, shown, folds, c, d)
    requires ShowsItsRange(content + more, notes, shown + moreShown, last)
    requires last.canonicalStart == |content| && last.canonicalEnd == |content + more|
    requires last.start == |shown| && last.end == |shown + moreShown|
    ensures Laid(content + more, notes, shown + moreShown, folds + [last], c, d)
    decreases |folds|
  {
    if folds == [] {
      assert [] + [last] == [last] && [last][1..] == [];
      assert (shown + moreShown)[d..last.start] == shown[d..];
      assert (content + more)[c..last.canonicalStart] == content[c..];
    } else {
      var fold := folds[0];
      FirstStillLaid(content, notes, shown, fold, c, d, more, moreShown);
      LaidFold(content, notes, shown, folds[1..], fold.canonicalEnd, fold.end, more, moreShown, last);
      assert (folds + [last])[1..] == folds[1..] + [last];
    }
  }

  /** The text shown in place of an annotated range. */
  function Piece(content: Text, notes: Notes, annotation: Annotation, collapsed: bool, health: Health): Text
    requires annotation.start <= annotation.end <= |content|
    requires collapsed ==> notes.title(annotation.kind, health).Some?
  {
    if collapsed then notes.title(annotation.kind, health).value
    else content[annotation.start..annotation.end] + notes.remark(health)
  }

  lemma LaidGap(content: Text, notes: Notes, shown: Text, folds: seq<Fold>, from: nat, to: nat)
    requires from <= to <= |content| && Laid(content[..from], notes, shown, folds, 0, 0)
    ensures Laid(content[..to], notes, shown + content[from..to], folds, 0, 0)
  {
    LaidText(content[..from], notes, shown, folds, 0, 0, content[from..to]);
    assert content[..from] + content[from..to] == content[..to];
  }

  /** The fold made for one annotated range when `shown` is already there. */
  function FoldAt(content: Text, notes: Notes, index: nat, collapsed: bool, health: Health,
                  shown: Text): Fold
    requires index < |notes.list| && notes.list[index].start <= notes.list[index].end <= |content|
    requires collapsed ==> notes.title(notes.list[index].kind, health).Some?
  {
    var annotation := notes.list[index];
    var end := |shown| + |Piece(content, notes, annotation, collapsed, health)|;
    Fold(index, |shown|, end, if collapsed then end else |shown| + (annotation.end - annotation.start),
         annotation.start, annotation.end, collapsed, health)
  }

  lemma LaidPiece(content: Text, notes: Notes, shown: Text, folds: seq<Fold>, index: nat,
                  collapsed: bool, health: Health)
    requires index < |notes.list| && ValidAnnotation(content, notes.list[index], 0)
    requires Laid(content[..notes.list[index].start], notes, shown, folds, 0, 0)
    requires !notes.list[index].kind.ShortcutEmphasis?
    requires Sound(notes) && (collapsed ==> !Unnumbered(notes.list[index].kind))
    ensures Laid(content[..notes.list[index].end], notes,
                 shown + Piece(content, notes, notes.list[index], collapsed, health),
                 folds + [FoldAt(content, notes, index, collapsed, health, shown)], 0, 0)
  {
    var annotation := notes.list[index];
    var fold := FoldAt(content, notes, index, collapsed, health, shown);
    var before, more := content[..annotation.start], content[annotation.start..annotation.end];
    assert before + more == content[..annotation.end];
    if collapsed {
      LabelShown(before, more, notes, shown, fold);
    } else {
      TextShown(before, more, notes, shown, fold);
    }
    LaidFold(before, notes, shown, folds, 0, 0, more, Piece(content, notes, annotation, collapsed, health), fold);
  }

  lemma LabelShown(before: Text, more: Text, notes: Notes, shown: Text, fold: Fold)
    requires fold.index < |notes.list| && fold.collapsed
    requires var name := notes.title(notes.list[fold.index].kind, fold.health);
             name.Some? && name.value != [] && fold.end == fold.contentEnd == |shown| + |name.value|
    requires fold.start == |shown|
    requires fold.canonicalStart == notes.list[fold.index].start == |before|
    requires fold.canonicalEnd == notes.list[fold.index].end == |before + more| && more != []
    ensures ShowsItsRange(before + more, notes, shown + notes.title(notes.list[fold.index].kind, fold.health).value,
                          fold)
  {
    var piece := notes.title(notes.list[fold.index].kind, fold.health).value;
    assert (shown + piece)[fold.start..fold.end] == piece;
  }

  lemma TextShown(before: Text, more: Text, notes: Notes, shown: Text, fold: Fold)
    requires fold.index < |notes.list| && !fold.collapsed
    requires fold.start == |shown| && fold.contentEnd == |shown| + |more|
    requires fold.end == |shown| + |more + notes.remark(fold.health)|
    requires fold.canonicalStart == notes.list[fold.index].start == |before|
    requires fold.canonicalEnd == notes.list[fold.index].end == |before + more| && more != []
    ensures ShowsItsRange(before + more, notes, shown + (more + notes.remark(fold.health)), fold)
  {
    var suffix := notes.remark(fold.health);
    assert (shown + (more + suffix))[fold.start..fold.contentEnd] == more;
    assert (shown + (more + suffix))[fold.contentEnd..fold.end] == suffix;
    assert (before + more)[fold.canonicalStart..fold.canonicalEnd] == more;
  }

  // ---------------------------------------------------------------------------------------------
  // The builder

  /** A valid annotation is next, and all text before it is shown. */
  ghost predicate Ready(content: Text, notes: Notes, annotation: Annotation, shown: Text,
                        folds: seq<Fold>)
  {
    ValidAnnotation(content, annotation, 0) && Laid(content[..annotation.start], notes, shown, folds, 0, 0)
  }

  /** Substituting the annotation keeps the text laid out and adds its fold. */
  lemma LaidSubstitute(content: Text, notes: Notes, shown: Text, folds: seq<Fold>, index: nat, collapsed: bool,
                       health: Health)
    requires Sound(notes) && index < |notes.list| && !notes.list[index].kind.ShortcutEmphasis?
    requires Ready(content, notes, notes.list[index], shown, folds)
    requires collapsed ==> !Unnumbered(notes.list[index].kind)
    ensures var annotation, fold := notes.list[index], FoldAt(content, notes, index, collapsed, health, shown);
            && Laid(content[..annotation.end], notes, shown + Piece(content, notes, annotation, collapsed, health),
                    folds + [fold], 0, 0)
            && Origins(folds + [fold]) == Origins(folds) + [Origin(index, collapsed, health)]
  {
    LaidPiece(content, notes, shown, folds, index, collapsed, health);
    OneMoreOrigin(folds, FoldAt(content, notes, index, collapsed, health, shown));
  }

  /** Pushed in two parts, an expanded range and its remark are the piece laid out, and the fold is the one for it. */
  lemma ExpandedPiece(content: Text, notes: Notes, shown: Text, index: nat, health: Health)
    requires index < |notes.list| && notes.list[index].start <= notes.list[index].end <= |content|
    ensures var annotation := notes.list[index];
            var text := shown + content[annotation.start..annotation.end];
            var all := text + notes.remark(health);
            && all == shown + Piece(content, notes, annotation, false, health)
            && Fold(index, |shown|, |all|, |text|, annotation.start, annotation.end, false, health)
               == FoldAt(content, notes, index, false, health, shown)
  {
    Regroup(shown, content[notes.list[index].start..notes.list[index].end], notes.remark(health));
  }

  /** The first `n` annotations are done: none was refused, and each substitution has its fold. */
  ghost predicate Done(annotations: seq<Annotation>, expanded: seq<nat>, health: nat -> Health, folds: seq<Fold>,
                       n: nat)
  {
    && n <= |annotations| && Numbered(annotations, expanded, n)
    && Origins(folds) == Wanted(annotations, expanded, health, n)
  }

  lemma OneMoreDone(annotations: seq<Annotation>, expanded: seq<nat>, health: nat -> Health, folds: seq<Fold>,
                    n: nat, more: seq<Fold>)
    requires n < |annotations| && Done(annotations, expanded, health, folds, n)
    requires annotations[n].kind.Attachment? && n !in expanded ==> annotations[n].kind.ordinal.Some?
    requires Origins(more) == Origins(folds) +
      if annotations[n].kind.ShortcutEmphasis? then []
      else [Origin(n, n !in expanded, HealthOf(annotations, health, n))]
    ensures Done(annotations, expanded, health, more, n + 1)
  {
  }

  lemma Regroup(a: Text, b: Text, c: Text)
    ensures a + b + c == a + (b + c)
  {
  }

  class ProjectionBuilder {
    var output: Text
    var folds: seq<Fold>
    var cursor: nat

    constructor ()
      ensures output == [] && folds == [] && cursor == 0
    {
      output, folds, cursor := [], [], 0;
    }

    /** What is built so far shows the text before the cursor. */
    ghost predicate Shows(content: Text, notes: Notes)
      reads this
    {
      cursor <= |content| && CharBoundary(content, cursor)
      && Laid(content[..cursor], notes, output, folds, 0, 0)
    }

    /** A slice of the text is refused unless it lies between character boundaries. */
    method PushText(content: Text, start: nat, end: nat) returns (ok: bool)
      modifies this`output
      ensures ok <==> start <= end <= |content| && CharBoundary(content, start) && CharBoundary(content, end)
      ensures output == if ok then old(output) + content[start..end] else old(output)
    {
      ok := start <= end <= |content| && CharBoundary(content, start) && CharBoundary(content, end);
      if ok {
        output := output + content[start..end];
      }
    }

    method PushInline(content: Text, ghost notes: Notes, annotation: Annotation) returns (ok: bool)
      modifies this`output
      ensures Ready(content, notes, annotation, old(output), folds) ==>
        ok && Laid(content[..annotation.end], notes, output, folds, 0, 0)
    {
      if Ready(content, notes, annotation, output, folds) {
        LaidGap(content, notes, output, folds, annotation.start, annotation.end);
      }
      ok := PushText(content, annotation.start, annotation.end);
    }

    method PushExpanded(content: Text, notes: Notes, index: nat, annotation: Annotation,
                        health: Health) returns (ok: bool)
      requires Sound(notes) && index < |notes.list| && notes.list[index] == annotation
      requires !annotation.kind.ShortcutEmphasis?
      modifies this`output, this`folds
      ensures Ready(content, notes, annotation, old(output), old(folds)) ==>
        ok && Laid(content[..annotation.end], notes, output, folds, 0, 0)
        && Origins(folds) == Origins(old(folds)) + [Origin(index, false, health)]
    {
      ghost var shown, earlier := output, folds;
      var start := |output|;
      ok := PushText(content, annotation.start, annotation.end);
      if !ok { return; }
      var contentEnd := |output|;
      output := output + notes.remark(health);
      folds := folds + [Fold(index, start, |output|, contentEnd, annotation.start, annotation.end, false, health)];
      if Ready(content, notes, annotation, shown, earlier) {
        ExpandedPiece(content, notes, shown, index, health);
        LaidSubstitute(content, notes, shown, earlier, index, false, health);
      }
    }

    method PushCollapsed(ghost content: Text, notes: Notes, index: nat, annotation: Annotation,
                         health: Health) returns (ok: bool)
      requires Sound(notes) && index < |notes.list| && notes.list[index] == annotation
      requires !annotation.kind.ShortcutEmphasis?
      modifies this`output, this`folds
      ensures ok <==> (annotation.kind.Attachment? ==> annotation.kind.ordinal.Some?)
      ensures ok && Ready(content, notes, annotation, old(output), old(folds)) ==>
        && Laid(content[..annotation.end], notes, output, folds, 0, 0)
        && Origins(folds) == Origins(old(folds)) + [Origin(index, true, health)]
    {
      ghost var shown, earlier := output, folds;
      var start := |output|;
      var name := notes.title(annotation.kind, health);
      ok := name.Some?;
      if !ok { return; }
      output := output + name.value;
      folds := folds + [Fold(index, start, |output|, |output|, annotation.start, annotation.end, true, health)];
      if Ready(content, notes, annotation, shown, earlier) {
        LaidSubstitute(content, notes, shown, earlier, index, true, health);
      }
    }

    /** On a valid annotation only a missing number is refused; the text before its end is then shown. */
    method PushAnnotation(content: Text, notes: Notes, index: nat, annotation: Annotation,
                          expanded: bool, health: Health) returns (ok: bool)
      requires Sound(notes) && index < |notes.list| && notes.list[index] == annotation
      modifies this
      ensures old(Shows(content, notes)) && ValidAnnotation(content, annotation, old(cursor)) ==>
        && (ok <==> (annotation.kind.Attachment? && !expanded ==> annotation.kind.ordinal.Some?))
        && (ok ==> Shows(content, notes) && cursor == annotation.end
                   && Origins(folds) == old(Origins(folds)) +
                        if annotation.kind.ShortcutEmphasis? then [] else [Origin(index, !expanded, health)])
    {
      if Shows(content, notes) && ValidAnnotation(content, annotation, cursor) {
        LaidGap(content, notes, output, folds, cursor, annotation.start);
      }
      ok := PushText(content, cursor, annotation.start);
      if !ok { return; }
      assert old(Shows(content, notes)) && ValidAnnotation(content, annotation, cursor) ==>
          Ready(content, notes, annotation, output, folds);
      if annotation.kind.ShortcutEmphasis? {
        ok := PushInline(content, notes, annotation);
      } else if expanded {
        ok := PushExpanded(content, notes, index, annotation, health);
      } else {
        ok := PushCollapsed(content, notes, index, annotation, health);
      }
      if !ok { return; }
      cursor := annotation.end;
    }

    method Finish(content: Text, ghost notes: Notes) returns (ok: bool)
      modifies this`output
      ensures old(Shows(content, notes)) ==> ok && Laid(content, notes, output, folds, 0, 0)
    {
      if Shows(content, notes) {
        LaidGap(content, notes, output, folds, cursor, |content|);
        assert content[..|content|] == content;
      }
      ok := PushText(content, cursor, |content|);
    }
  }

  lemma OneMoreOrigin(folds: seq<Fold>, fold: Fold)
    ensures Origins(folds + [fold]) == Origins(folds) + [OriginOf(fold)]
  {
  }

  datatype Presentation = Presentation(content: Text, folds: seq<Fold>)

  /**
   * Valid annotations are refused only when a collapsed attachment has no number. Otherwise every
   * substitution becomes a fold, and the result shows the whole text.
   */
  method ProjectWithHealth(content: Text, notes: Notes, expanded: seq<nat>, health: nat -> Health)
    returns (result: Option<Presentation>)
    requires Sound(notes)
    ensures ValidAnnotations(content, notes.list) ==>
      && (result.Some? <==> Numbered(notes.list, expanded, |notes.list|))
      && (result.Some? ==>
            && Origins(result.value.folds) == Wanted(notes.list, expanded, health, |notes.list|)
            && Laid(content, notes, result.value.content, result.value.folds, 0, 0))
  {
    var projection := new ProjectionBuilder();
    ghost var valid := ValidAnnotations(content, notes.list);
    for i := 0 to |notes.list|
      invariant valid ==> projection.Shows(content, notes) && projection.cursor == EndBefore(notes.list, i)
      invariant valid ==> Done(notes.list, expanded, health, projection.folds, i)
    {
      assert valid ==> ValidAnnotation(content, notes.list[i], EndBefore(notes.list, i));
      ghost var earlier := projection.folds;
      var attachmentHealth := if notes.list[i].kind.Attachment? then health(i) else Available;
      var ok := projection.PushAnnotation(content, notes, i, notes.list[i], i in expanded, attachmentHealth);
      if !ok { return None; }
      if valid { OneMoreDone(notes.list, expanded, health, earlier, i, projection.folds); }
    }
    var ok := projection.Finish(content, notes);
    if !ok { return None; }
    result := Some(Presentation(projection.output, projection.folds));
  }
}
