/** Byte offsets between the canonical text and the text shown for it. */
module OffsetMaps {
  import opened Options
  import opened Projection

  datatype Edge = Start | End

  function Minus(a: nat, b: nat): nat { if a < b then 0 else a - b }

  function Min(a: nat, b: nat): nat { if a < b then a else b }

  // ---------------------------------------------------------------------------------------------
  // The maps, from the offsets `c` and `d` behind the folds already passed

  function Project(byte: nat, folds: seq<Fold>, c: nat, d: nat): nat {
    if folds == [] || byte < folds[0].canonicalStart then d + Minus(byte, c)
    else if byte <= folds[0].canonicalEnd then ProjectInto(byte, folds[0])
    else Project(byte, folds[1..], folds[0].canonicalEnd, folds[0].end)
  }

  function ProjectInto(byte: nat, fold: Fold): nat {
    if !fold.collapsed then Min(fold.start + Minus(byte, fold.canonicalStart), fold.contentEnd)
    else if byte == fold.canonicalStart then fold.start
    else fold.end
  }

  function Unproject(byte: nat, folds: seq<Fold>, c: nat, d: nat): nat {
    if folds == [] || byte < folds[0].start then c + Minus(byte, d)
    else if byte <= folds[0].end then UnprojectInto(byte, folds[0])
    else Unproject(byte, folds[1..], folds[0].canonicalEnd, folds[0].end)
  }

  function UnprojectInto(byte: nat, fold: Fold): nat {
    if fold.collapsed || byte >= fold.contentEnd then fold.canonicalEnd
    else fold.canonicalStart + Minus(byte, fold.start)
  }

  function Boundary(byte: nat, folds: seq<Fold>, edge: Edge, c: nat, d: nat): nat {
    if folds == [] || byte < folds[0].start then c + Minus(byte, d)
    else if byte == folds[0].start || byte <= folds[0].end then BoundaryInto(byte, folds[0], edge)
    else Boundary(byte, folds[1..], edge, folds[0].canonicalEnd, folds[0].end)
  }

  function BoundaryInto(byte: nat, fold: Fold, edge: Edge): nat {
    if byte == fold.start then fold.canonicalStart
    else if !fold.collapsed && byte < fold.contentEnd then fold.canonicalStart + Minus(byte, fold.start)
    else if edge == Start && byte < fold.end then fold.canonicalStart
    else fold.canonicalEnd
  }

  method ProjectByte(byte: nat, folds: seq<Fold>) returns (r: nat)
    ensures r == Project(byte, folds, 0, 0)
  {
    var c: nat, d: nat := 0, 0;
    for i := 0 to |folds|
      invariant Project(byte, folds, 0, 0) == Project(byte, folds[i..], c, d)
    {
      var fold := folds[i];
      if byte < fold.canonicalStart {
        return d + Minus(byte, c);
      }
      if byte <= fold.canonicalEnd {
        if !fold.collapsed {
          return Min(fold.start + Minus(byte, fold.canonicalStart), fold.contentEnd);
        }
        return if byte == fold.canonicalStart then fold.start else fold.end;
      }
      c, d := fold.canonicalEnd, fold.end;
      assert folds[i..][1..] == folds[i + 1..];
    }
    r := d + Minus(byte, c);
  }

  method UnprojectByte(byte: nat, folds: seq<Fold>) returns (r: nat)
    ensures r == Unproject(byte, folds, 0, 0)
  {
    var c: nat, d: nat := 0, 0;
    for i := 0 to |folds|
      invariant Unproject(byte, folds, 0, 0) == Unproject(byte, folds[i..], c, d)
    {
      var fold := folds[i];
      if byte < fold.start {
        return c + Minus(byte, d);
      }
      if byte <= fold.end {
        return if fold.collapsed || byte >= fold.contentEnd then fold.canonicalEnd
               else fold.canonicalStart + Minus(byte, fold.start);
      }
      c, d := fold.canonicalEnd, fold.end;
      assert folds[i..][1..] == folds[i + 1..];
    }
    r := c + Minus(byte, d);
  }

  method UnprojectBoundary(byte: nat, folds: seq<Fold>, edge: Edge) returns (r: nat)
    ensures r == Boundary(byte, folds, edge, 0, 0)
  {
    var c: nat, d: nat := 0, 0;
    for i := 0 to |folds|
      invariant Boundary(byte, folds, edge, 0, 0) == Boundary(byte, folds[i..], edge, c, d)
    {
      var fold := folds[i];
      if byte < fold.start {
        return c + Minus(byte, d);
      }
      if byte == fold.start {
        return fold.canonicalStart;
      }
      if byte <= fold.end {
        if !fold.collapsed && byte < fold.contentEnd {
          return fold.canonicalStart + Minus(byte, fold.start);
        }
        return if edge == Start && byte < fold.end then fold.canonicalStart else fold.canonicalEnd;
      }
      c, d := fold.canonicalEnd, fold.end;
      assert folds[i..][1..] == folds[i + 1..];
    }
    r := c + Minus(byte, d);
  }

  // ---------------------------------------------------------------------------------------------
  // Where an offset lies

  /** Strictly inside a collapsed range. */
  ghost predicate Hidden(folds: seq<Fold>, byte: nat) {
    exists fold :: fold in folds && fold.collapsed && fold.canonicalStart < byte < fold.canonicalEnd
  }

  ghost predicate StartsCollapsed(folds: seq<Fold>, byte: nat) {
    exists fold :: fold in folds && fold.collapsed && fold.canonicalStart == byte
  }

  ghost predicate EndsFold(folds: seq<Fold>, byte: nat) {
    exists fold :: fold in folds && fold.canonicalEnd == byte
  }

  /** An expanded range ends here, with a remark on its health behind it. */
  ghost predicate EndsRemarked(folds: seq<Fold>, byte: nat) {
    exists fold :: fold in folds && !fold.collapsed && fold.health != Available && fold.canonicalEnd == byte
  }

  // ---------------------------------------------------------------------------------------------
  // One fold at a time

  /** The geometry of a layout: the offsets without the texts. */
  ghost predicate Placed(fold: Fold, c: nat, d: nat) {
    && c <= fold.canonicalStart < fold.canonicalEnd && d <= fold.start
    && fold.start - d == fold.canonicalStart - c
    && (if fold.collapsed then fold.start < fold.contentEnd == fold.end
        else && fold.contentEnd - fold.start == fold.canonicalEnd - fold.canonicalStart
             && (if fold.health == Available then fold.contentEnd == fold.end else fold.contentEnd < fold.end))
  }

  ghost predicate Chain(folds: seq<Fold>, c: nat, d: nat, length: nat, shownLength: nat) {
    if folds == [] then c <= length && d <= shownLength && shownLength - d == length - c
    else && Placed(folds[0], c, d) && folds[0].canonicalEnd <= length && folds[0].end <= shownLength
         && Chain(folds[1..], folds[0].canonicalEnd, folds[0].end, length, shownLength)
  }

  lemma {:induction false} LaidIsChain(content: Text, notes: Notes, shown: Text, folds: seq<Fold>, c: nat, d: nat)
    requires Sound(notes) && Laid(content, notes, shown, folds, c, d)
    ensures Chain(folds, c, d, |content|, |shown|)
    decreases |folds|
  {
    if folds == [] {
      assert |shown[d..]| == |content[c..]|;
    } else {
      var fold := folds[0];
      assert |shown[d..fold.start]| == |content[c..fold.canonicalStart]|;
      LaidIsPlaced(content, notes, shown, fold);
      LaidIsChain(content, notes, shown, folds[1..], fold.canonicalEnd, fold.end);
    }
  }

  lemma LaidIsPlaced(content: Text, notes: Notes, shown: Text, fold: Fold)
    requires Sound(notes) && ShowsItsRange(content, notes, shown, fold)
    ensures Placed(fold, fold.canonicalStart, fold.start)
  {
    if !fold.collapsed {
      assert |shown[fold.start..fold.contentEnd]| == |content[fold.canonicalStart..fold.canonicalEnd]|;
      assert |shown[fold.contentEnd..fold.end]| == |notes.remark(fold.health)|;
    }
  }

  /** All folds lie behind the offsets reached. */
  lemma {:induction false} FoldsLieAhead(folds: seq<Fold>, c: nat, d: nat, n: nat, m: nat)
    requires Chain(folds, c, d, n, m)
    ensures c <= n && d <= m
    ensures forall fold :: fold in folds ==> c <= fold.canonicalStart < fold.canonicalEnd <= n
    ensures forall fold :: fold in folds ==> d <= fold.start < fold.contentEnd
    decreases |folds|
  {
    if folds != [] {
      FoldsLieAhead(folds[1..], folds[0].canonicalEnd, folds[0].end, n, m);
      FirstOrLater(folds);
    }
  }

  lemma FirstOrLater(folds: seq<Fold>)
    requires folds != []
    ensures forall fold :: fold in folds <==> fold == folds[0] || fold in folds[1..]
  {
    assert folds == [folds[0]] + folds[1..];
  }

  /** Offsets behind the first fold meet only the others; offsets up to its end meet no other inside. */
  lemma PastFirst(folds: seq<Fold>, c: nat, d: nat, n: nat, m: nat, byte: nat)
    requires folds != [] && Chain(folds, c, d, n, m) && byte > folds[0].canonicalEnd
    ensures Hidden(folds, byte) == Hidden(folds[1..], byte)
    ensures StartsCollapsed(folds, byte) == StartsCollapsed(folds[1..], byte)
    ensures EndsFold(folds, byte) == EndsFold(folds[1..], byte)
    ensures EndsRemarked(folds, byte) == EndsRemarked(folds[1..], byte)
  {
    FirstOrLater(folds);
  }

  lemma UpToFirst(folds: seq<Fold>, c: nat, d: nat, n: nat, m: nat, byte: nat)
    requires folds != [] && Chain(folds, c, d, n, m) && byte <= folds[0].canonicalEnd
    ensures Hidden(folds, byte) == (folds[0].collapsed && folds[0].canonicalStart < byte < folds[0].canonicalEnd)
    ensures byte < folds[0].canonicalEnd ==>
              StartsCollapsed(folds, byte) == (folds[0].collapsed && byte == folds[0].canonicalStart)
    ensures EndsFold(folds, byte) == (byte == folds[0].canonicalEnd)
    ensures EndsRemarked(folds, byte) ==
              (byte == folds[0].canonicalEnd && !folds[0].collapsed && folds[0].health != Available)
  {
    FirstOrLater(folds);
    FoldsLieAhead(folds[1..], folds[0].canonicalEnd, folds[0].end, n, m);
    assert folds[0] in folds;
  }

  // ---------------------------------------------------------------------------------------------
  // Projecting

  /** Projected offsets stay inside the text shown, and move on from the offsets reached. */
  lemma {:induction false} ProjectMovesOn(folds: seq<Fold>, c: nat, d: nat, n: nat, m: nat, byte: nat)
    requires Chain(folds, c, d, n, m) && c <= byte <= n
    ensures d <= Project(byte, folds, c, d) <= m
    ensures byte == c ==> Project(byte, folds, c, d) == d
    ensures byte > c ==> Project(byte, folds, c, d) > d
    decreases |folds|
  {
    FoldsLieAhead(folds, c, d, n, m);
    if folds != [] && byte > folds[0].canonicalEnd {
      ProjectMovesOn(folds[1..], folds[0].canonicalEnd, folds[0].end, n, m, byte);
    }
  }

  lemma {:induction false} ProjectInOrder(folds: seq<Fold>, c: nat, d: nat, n: nat, m: nat, low: nat, high: nat)
    requires Chain(folds, c, d, n, m) && c <= low <= high <= n
    ensures Project(low, folds, c, d) <= Project(high, folds, c, d)
    decreases |folds|
  {
    if folds != [] && high > folds[0].canonicalEnd {
      ProjectMovesOn(folds[1..], folds[0].canonicalEnd, folds[0].end, n, m, high);
      if low > folds[0].canonicalEnd {
        ProjectInOrder(folds[1..], folds[0].canonicalEnd, folds[0].end, n, m, low, high);
      }
    }
  }

  lemma {:induction false} BoundaryUndoes(folds: seq<Fold>, c: nat, d: nat, n: nat, m: nat, byte: nat, edge: Edge)
    requires Chain(folds, c, d, n, m) && c <= byte <= n
    ensures Boundary(Project(byte, folds, c, d), folds, edge, c, d) == byte <==>
            (!Hidden(folds, byte) && (edge == Start ==> !EndsRemarked(folds, byte)))
    decreases |folds|
  {
    if folds == [] {
    } else if byte > folds[0].canonicalEnd {
      ProjectMovesOn(folds[1..], folds[0].canonicalEnd, folds[0].end, n, m, byte);
      PastFirst(folds, c, d, n, m, byte);
      BoundaryUndoes(folds[1..], folds[0].canonicalEnd, folds[0].end, n, m, byte, edge);
    } else {
      UpToFirst(folds, c, d, n, m, byte);
    }
  }

  lemma {:induction false} UnprojectUndoes(folds: seq<Fold>, c: nat, d: nat, n: nat, m: nat, byte: nat)
    requires Chain(folds, c, d, n, m) && c <= byte <= n
    ensures Unproject(Project(byte, folds, c, d), folds, c, d) == byte <==>
            (!Hidden(folds, byte) && (StartsCollapsed(folds, byte) ==> EndsFold(folds, byte)))
    decreases |folds|
  {
    if folds == [] {
    } else if byte > folds[0].canonicalEnd {
      ProjectMovesOn(folds[1..], folds[0].canonicalEnd, folds[0].end, n, m, byte);
      PastFirst(folds, c, d, n, m, byte);
      UnprojectUndoes(folds[1..], folds[0].canonicalEnd, folds[0].end, n, m, byte);
    } else {
      UpToFirst(folds, c, d, n, m, byte);
    }
  }

  // ---------------------------------------------------------------------------------------------
  // Unprojecting

  /** Offsets taken back stay inside the canonical text and never fall inside a collapsed range. */
  lemma {:induction false} PointersLand(folds: seq<Fold>, c: nat, d: nat, n: nat, m: nat, byte: nat)
    requires Chain(folds, c, d, n, m) && d <= byte <= m
    ensures c <= Unproject(byte, folds, c, d) <= n && !Hidden(folds, Unproject(byte, folds, c, d))
    ensures byte > d ==> Unproject(byte, folds, c, d) > c
    decreases |folds|
  {
    FoldsLieAhead(folds, c, d, n, m);
    if folds == [] {
    } else if byte > folds[0].end {
      PointersLand(folds[1..], folds[0].canonicalEnd, folds[0].end, n, m, byte);
      SeenBehindFirst(folds, c, d, n, m, Unproject(byte, folds[1..], folds[0].canonicalEnd, folds[0].end));
    } else {
      UpToFirst(folds, c, d, n, m, Unproject(byte, folds, c, d));
    }
  }

  lemma {:induction false} EdgesLand(folds: seq<Fold>, c: nat, d: nat, n: nat, m: nat, byte: nat, edge: Edge)
    requires Chain(folds, c, d, n, m) && d <= byte <= m
    ensures c <= Boundary(byte, folds, edge, c, d) <= n && !Hidden(folds, Boundary(byte, folds, edge, c, d))
    ensures byte > d && edge == End ==> Boundary(byte, folds, edge, c, d) > c
    decreases |folds|
  {
    FoldsLieAhead(folds, c, d, n, m);
    if folds == [] {
    } else if byte > folds[0].end {
      EdgesLand(folds[1..], folds[0].canonicalEnd, folds[0].end, n, m, byte, edge);
      SeenBehindFirst(folds, c, d, n, m, Boundary(byte, folds[1..], edge, folds[0].canonicalEnd, folds[0].end));
    } else {
      UpToFirst(folds, c, d, n, m, Boundary(byte, folds, edge, c, d));
    }
  }

  lemma SeenBehindFirst(folds: seq<Fold>, c: nat, d: nat, n: nat, m: nat, byte: nat)
    requires folds != [] && Chain(folds, c, d, n, m)
    requires byte >= folds[0].canonicalEnd && !Hidden(folds[1..], byte)
    ensures !Hidden(folds, byte)
  {
    FirstOrLater(folds);
  }

  lemma {:induction false} UnprojectInOrder(folds: seq<Fold>, c: nat, d: nat, n: nat, m: nat, low: nat, high: nat)
    requires Chain(folds, c, d, n, m) && d <= low <= high <= m
    ensures Unproject(low, folds, c, d) <= Unproject(high, folds, c, d)
    ensures Boundary(low, folds, End, c, d) <= Boundary(high, folds, End, c, d)
    decreases |folds|
  {
    if folds != [] && high > folds[0].end {
      PointersLand(folds[1..], folds[0].canonicalEnd, folds[0].end, n, m, high);
      EdgesLand(folds[1..], folds[0].canonicalEnd, folds[0].end, n, m, high, End);
      if low > folds[0].end {
        UnprojectInOrder(folds[1..], folds[0].canonicalEnd, folds[0].end, n, m, low, high);
      }
    }
  }

  /** Both offsets lie in one range shown in full: the first in its text, the second in the remark behind it. */
  ghost predicate RemarkBehind(folds: seq<Fold>, low: nat, high: nat) {
    exists fold :: fold in folds && !fold.collapsed && fold.start < low < fold.contentEnd <= high < fold.end
  }

  lemma {:induction false} StartsInOrder(folds: seq<Fold>, c: nat, d: nat, n: nat, m: nat, low: nat, high: nat)
    requires Chain(folds, c, d, n, m) && d <= low <= high <= m
    ensures Boundary(low, folds, Start, c, d) <= Boundary(high, folds, Start, c, d) <==>
            !RemarkBehind(folds, low, high)
    decreases |folds|
  {
    if folds != [] {
      FirstOrLater(folds);
      FoldsLieAhead(folds[1..], folds[0].canonicalEnd, folds[0].end, n, m);
      if high > folds[0].end {
        EdgesLand(folds[1..], folds[0].canonicalEnd, folds[0].end, n, m, high, Start);
        if low > folds[0].end {
          StartsInOrder(folds[1..], folds[0].canonicalEnd, folds[0].end, n, m, low, high);
          assert RemarkBehind(folds, low, high) == RemarkBehind(folds[1..], low, high);
        }
      } else {
        assert folds[0] in folds;
      }
    }
  }

  lemma {:induction false} RemarkIsBehind(folds: seq<Fold>, c: nat, d: nat, n: nat, m: nat, fold: Fold, byte: nat)
    requires Chain(folds, c, d, n, m) && fold in folds && !fold.collapsed && fold.contentEnd <= byte < fold.end
    ensures Boundary(byte, folds, Start, c, d) == fold.canonicalStart
    ensures Boundary(byte, folds, End, c, d) == Unproject(byte, folds, c, d) == fold.canonicalEnd
    decreases |folds|
  {
    FoldsLieAhead(folds, c, d, n, m);
    if fold != folds[0] {
      FirstOrLater(folds);
      FoldsLieAhead(folds[1..], folds[0].canonicalEnd, folds[0].end, n, m);
      RemarkIsBehind(folds[1..], folds[0].canonicalEnd, folds[0].end, n, m, fold, byte);
    }
  }

  lemma {:induction false} LabelIsAhead(folds: seq<Fold>, c: nat, d: nat, n: nat, m: nat, fold: Fold, byte: nat)
    requires Chain(folds, c, d, n, m) && fold in folds && fold.collapsed
    ensures fold.canonicalStart < byte <= fold.canonicalEnd ==> Project(byte, folds, c, d) == fold.end
    ensures fold.start < byte < fold.end ==>
              && Boundary(byte, folds, Start, c, d) == fold.canonicalStart
              && Boundary(byte, folds, End, c, d) == Unproject(byte, folds, c, d) == fold.canonicalEnd
    decreases |folds|
  {
    FoldsLieAhead(folds, c, d, n, m);
    if fold != folds[0] {
      FirstOrLater(folds);
      FoldsLieAhead(folds[1..], folds[0].canonicalEnd, folds[0].end, n, m);
      LabelIsAhead(folds[1..], folds[0].canonicalEnd, folds[0].end, n, m, fold, byte);
    }
  }

  // ---------------------------------------------------------------------------------------------
  // Text

  ghost predicate InSight(folds: seq<Fold>, byte: nat) { !Hidden(folds, byte) && !StartsCollapsed(folds, byte) }

  /** Unless a collapsed range starts there, text goes on where the last fold ended. */
  lemma TextGoesOn(content: Text, notes: Notes, shown: Text, folds: seq<Fold>, c: nat, d: nat)
    requires Sound(notes) && Laid(content, notes, shown, folds, c, d) && c < |content| && !StartsCollapsed(folds, c)
    ensures d < |shown| && shown[d] == content[c]
  {
    if folds == [] {
      assert shown[d..][0] == content[c..][0];
    } else {
      var fold := folds[0];
      if c < fold.canonicalStart {
        assert shown[d..fold.start][0] == content[c..fold.canonicalStart][0];
      } else {
        assert fold in folds;
        LaidIsChain(content, notes, shown, folds, c, d);
        assert shown[fold.start..fold.contentEnd][0] == content[fold.canonicalStart..fold.canonicalEnd][0];
      }
    }
  }

  lemma TextInside(content: Text, notes: Notes, shown: Text, fold: Fold, byte: nat)
    requires Sound(notes) && ShowsItsRange(content, notes, shown, fold) && !fold.collapsed
    requires fold.canonicalStart <= byte < fold.canonicalEnd
    ensures ProjectInto(byte, fold) < fold.contentEnd && shown[ProjectInto(byte, fold)] == content[byte]
  {
    LaidIsPlaced(content, notes, shown, fold);
    var k := byte - fold.canonicalStart;
    assert shown[fold.start..fold.contentEnd][k] == content[fold.canonicalStart..fold.canonicalEnd][k];
  }

  lemma {:induction false} TextIsShown(content: Text, notes: Notes, shown: Text, folds: seq<Fold>, c: nat, d: nat,
                                       byte: nat)
    requires Sound(notes) && Laid(content, notes, shown, folds, c, d) && c <= byte < |content|
    requires InSight(folds, byte)
    ensures Project(byte, folds, c, d) < |shown|
    ensures shown[Project(byte, folds, c, d)] == if EndsRemarked(folds, byte) then SPACE else content[byte]
    decreases |folds|
  {
    LaidIsChain(content, notes, shown, folds, c, d);
    if folds == [] {
      assert shown[d..][byte - c] == content[c..][byte - c];
    } else {
      var fold := folds[0];
      if byte > fold.canonicalEnd {
        PastFirst(folds, c, d, |content|, |shown|, byte);
        TextIsShown(content, notes, shown, folds[1..], fold.canonicalEnd, fold.end, byte);
      } else {
        UpToFirst(folds, c, d, |content|, |shown|, byte);
        if byte < fold.canonicalStart {
          assert shown[d..fold.start][byte - c] == content[c..fold.canonicalStart][byte - c];
        } else if byte < fold.canonicalEnd {
          TextInside(content, notes, shown, fold, byte);
        } else {
          TextBehind(content, notes, shown, folds, c, d);
        }
      }
    }
  }

  lemma TextBehind(content: Text, notes: Notes, shown: Text, folds: seq<Fold>, c: nat, d: nat)
    requires Sound(notes) && Laid(content, notes, shown, folds, c, d) && folds != []
    requires folds[0].canonicalEnd < |content| && !StartsCollapsed(folds, folds[0].canonicalEnd)
    ensures var fold := folds[0];
            var at := if fold.collapsed then fold.end else fold.contentEnd;
            && at < |shown|
            && shown[at] == if !fold.collapsed && fold.health != Available then SPACE else content[fold.canonicalEnd]
  {
    var fold := folds[0];
    FirstOrLater(folds);
    LaidIsPlaced(content, notes, shown, fold);
    if !fold.collapsed && fold.health != Available {
      assert shown[fold.contentEnd..fold.end][0] == notes.remark(fold.health)[0];
    } else {
      TextGoesOn(content, notes, shown, folds[1..], fold.canonicalEnd, fold.end);
    }
  }

  // ---------------------------------------------------------------------------------------------
  // The presentation of a thought

  ghost predicate Presents(p: Presentation, content: Text, notes: Notes) {
    Sound(notes) && Laid(content, notes, p.content, p.folds, 0, 0)
  }

  function Shown(p: Presentation, byte: nat): nat { Project(byte, p.folds, 0, 0) }

  /** Projection keeps order and stays inside the text shown; so do the ways back for a pointer and for a row's end. */
  lemma MapsKeepOrder(p: Presentation, content: Text, notes: Notes, low: nat, high: nat)
    requires Presents(p, content, notes) && low <= high
    ensures high <= |content| ==> Shown(p, low) <= Shown(p, high) <= |p.content|
    ensures high <= |p.content| ==>
      && Unproject(low, p.folds, 0, 0) <= Unproject(high, p.folds, 0, 0) <= |content|
      && Boundary(low, p.folds, End, 0, 0) <= Boundary(high, p.folds, End, 0, 0) <= |content|
  {
    LaidIsChain(content, notes, p.content, p.folds, 0, 0);
    if high <= |content| {
      ProjectInOrder(p.folds, 0, 0, |content|, |p.content|, low, high);
      ProjectMovesOn(p.folds, 0, 0, |content|, |p.content|, high);
    }
    if high <= |p.content| {
      UnprojectInOrder(p.folds, 0, 0, |content|, |p.content|, low, high);
      PointersLand(p.folds, 0, 0, |content|, |p.content|, high);
      EdgesLand(p.folds, 0, 0, |content|, |p.content|, high, End);
    }
  }

  /** The way back for a row's start keeps order too, exactly unless it meets a remark behind text shown in full. */
  lemma StartsKeepOrder(p: Presentation, content: Text, notes: Notes, low: nat, high: nat)
    requires Presents(p, content, notes) && low <= high <= |p.content|
    ensures Boundary(low, p.folds, Start, 0, 0) <= Boundary(high, p.folds, Start, 0, 0) <==>
            !RemarkBehind(p.folds, low, high)
    ensures Boundary(high, p.folds, Start, 0, 0) <= |content|
  {
    LaidIsChain(content, notes, p.content, p.folds, 0, 0);
    StartsInOrder(p.folds, 0, 0, |content|, |p.content|, low, high);
    EdgesLand(p.folds, 0, 0, |content|, |p.content|, high, Start);
  }

  /** Every offset in a remark goes back to its range: a row's start to the range's start, all else to its end. */
  lemma RemarksLeadToTheirRange(p: Presentation, content: Text, notes: Notes, fold: Fold, byte: nat)
    requires Presents(p, content, notes) && fold in p.folds && !fold.collapsed && fold.contentEnd <= byte < fold.end
    ensures Boundary(byte, p.folds, Start, 0, 0) == fold.canonicalStart
    ensures Boundary(byte, p.folds, End, 0, 0) == Unproject(byte, p.folds, 0, 0) == fold.canonicalEnd
  {
    LaidIsChain(content, notes, p.content, p.folds, 0, 0);
    RemarkIsBehind(p.folds, 0, 0, |content|, |p.content|, fold, byte);
  }

  /** A label stands for its range: inside the range all projects behind it, and all inside it goes back to an end. */
  lemma LabelsLeadToTheirRange(p: Presentation, content: Text, notes: Notes, fold: Fold, byte: nat)
    requires Presents(p, content, notes) && fold in p.folds && fold.collapsed
    ensures fold.canonicalStart < byte <= fold.canonicalEnd ==> Shown(p, byte) == fold.end
    ensures fold.start < byte < fold.end ==>
              && Boundary(byte, p.folds, Start, 0, 0) == fold.canonicalStart
              && Boundary(byte, p.folds, End, 0, 0) == Unproject(byte, p.folds, 0, 0) == fold.canonicalEnd
  {
    LaidIsChain(content, notes, p.content, p.folds, 0, 0);
    LabelIsAhead(p.folds, 0, 0, |content|, |p.content|, fold, byte);
  }

  /**
   * Outside collapsed ranges the text shown at a projected offset is the canonical text, exactly
   * unless an expanded range with a remark ends there: then the remark's leading space is shown.
   */
  lemma VisibleTextIsPreserved(p: Presentation, content: Text, notes: Notes, byte: nat)
    requires Presents(p, content, notes) && byte < |content| && InSight(p.folds, byte)
    ensures Shown(p, byte) < |p.content|
    ensures p.content[Shown(p, byte)] == content[byte] <==> (EndsRemarked(p.folds, byte) ==> content[byte] == SPACE)
  {
    TextIsShown(content, notes, p.content, p.folds, 0, 0, byte);
  }

  /** A row edge taken back meets the offset it came from, exactly unless that was hidden or, for a start, remarked. */
  lemma RowEdgesComeBack(p: Presentation, content: Text, notes: Notes, byte: nat)
    requires Presents(p, content, notes) && byte <= |content|
    ensures Boundary(Shown(p, byte), p.folds, End, 0, 0) == byte <==> !Hidden(p.folds, byte)
    ensures Boundary(Shown(p, byte), p.folds, Start, 0, 0) == byte <==>
            (!Hidden(p.folds, byte) && !EndsRemarked(p.folds, byte))
  {
    LaidIsChain(content, notes, p.content, p.folds, 0, 0);
    BoundaryUndoes(p.folds, 0, 0, |content|, |p.content|, byte, End);
    BoundaryUndoes(p.folds, 0, 0, |content|, |p.content|, byte, Start);
  }

  /** A pointer offset taken back meets it too, except at the start of a collapsed range no fold ends at. */
  lemma PointersComeBack(p: Presentation, content: Text, notes: Notes, byte: nat)
    requires Presents(p, content, notes) && byte <= |content|
    ensures Unproject(Shown(p, byte), p.folds, 0, 0) == byte <==>
            (!Hidden(p.folds, byte) && (StartsCollapsed(p.folds, byte) ==> EndsFold(p.folds, byte)))
  {
    LaidIsChain(content, notes, p.content, p.folds, 0, 0);
    UnprojectUndoes(p.folds, 0, 0, |content|, |p.content|, byte);
  }

  /** Nothing shown leads inside a collapsed range, so going there and back again settles. */
  lemma NothingLeadsInside(p: Presentation, content: Text, notes: Notes, byte: nat, edge: Edge)
    requires Presents(p, content, notes) && byte <= |p.content|
    ensures var back := Boundary(byte, p.folds, edge, 0, 0);
            && back <= |content| && !Hidden(p.folds, back)
            && Boundary(Shown(p, back), p.folds, End, 0, 0) == back
    ensures var back := Unproject(byte, p.folds, 0, 0);
            && back <= |content| && !Hidden(p.folds, back)
            && Boundary(Shown(p, back), p.folds, End, 0, 0) == back
  {
    LaidIsChain(content, notes, p.content, p.folds, 0, 0);
    PointersLand(p.folds, 0, 0, |content|, |p.content|, byte);
    EdgesLand(p.folds, 0, 0, |content|, |p.content|, byte, edge);
    RowEdgesComeBack(p, content, notes, Boundary(byte, p.folds, edge, 0, 0));
    RowEdgesComeBack(p, content, notes, Unproject(byte, p.folds, 0, 0));
  }

  // ---------------------------------------------------------------------------------------------
  // The exceptions occur

  /** Behind an attachment shown in full but not available, the text at its end projects onto the remark. */
  lemma RemarkHidesText(notes: Notes)
    requires Sound(notes) && notes.list == [Annotation(0, 1, Attachment(true, Some(1)))]
    ensures var content: Text, remark := [0x61, 0x62], notes.remark(InCloud);
            var p := Presentation([0x61] + remark + [0x62], [Fold(0, 0, 1 + |remark|, 1, 0, 1, false, InCloud)]);
            Presents(p, content, notes) && Shown(p, 1) < |p.content| && p.content[Shown(p, 1)] != content[1]
  {
    var content: Text, remark := [0x61, 0x62], notes.remark(InCloud);
    var fold := Fold(0, 0, 1 + |remark|, 1, 0, 1, false, InCloud);
    var shown := [0x61] + remark + [0x62];
    assert shown[0..1] == content[0..1] && shown[1..1 + |remark|] == remark;
    assert shown[1 + |remark|..] == content[1..];
    assert [fold][1..] == [] && shown[0..0] == content[0..0];
    assert Laid(content, notes, shown, [], 1, 1 + |remark|);
    assert Laid(content, notes, shown, [fold], 0, 0);
  }

  /** Two bytes shown in full but not available: the row start between them goes back to 1, the one behind them to 0. */
  lemma RemarkTurnsStartsBack(notes: Notes)
    requires Sound(notes) && notes.list == [Annotation(0, 2, Attachment(true, Some(1)))]
    ensures var content: Text, remark := [0x61, 0x62], notes.remark(InCloud);
            var p := Presentation([0x61, 0x62] + remark, [Fold(0, 0, 2 + |remark|, 2, 0, 2, false, InCloud)]);
            && Presents(p, content, notes)
            && Boundary(1, p.folds, Start, 0, 0) == 1 && Boundary(2, p.folds, Start, 0, 0) == 0
  {
    var content: Text, remark := [0x61, 0x62], notes.remark(InCloud);
    var fold := Fold(0, 0, 2 + |remark|, 2, 0, 2, false, InCloud);
    var shown := [0x61, 0x62] + remark;
    assert shown[0..2] == content[0..2] && shown[2..2 + |remark|] == remark;
    assert shown[2 + |remark|..] == content[2..];
    assert [fold][1..] == [] && shown[0..0] == content[0..0];
    assert Laid(content, notes, shown, [], 2, 2 + |remark|);
    assert Laid(content, notes, shown, [fold], 0, 0);
  }

  /** A collapsed range at the start of the text sends its own start to its end. */
  lemma CollapsedStartJumps(notes: Notes, name: Text)
    requires Sound(notes) && notes.list == [Annotation(0, 1, Attachment(true, Some(1)))]
    requires notes.title(notes.list[0].kind, Available) == Some(name)
    ensures var content: Text := [0x61];
            var p := Presentation(name, [Fold(0, 0, |name|, |name|, 0, 1, true, Available)]);
            Presents(p, content, notes) && Unproject(Shown(p, 0), p.folds, 0, 0) == 1
  {
    var content: Text := [0x61];
    var fold := Fold(0, 0, |name|, |name|, 0, 1, true, Available);
    assert name[0..|name|] == name && name[0..0] == content[0..0];
    assert [fold][1..] == [] && name[|name|..] == content[1..];
    assert Laid(content, notes, name, [], 1, |name|);
    assert Laid(content, notes, name, [fold], 0, 0);
  }
}
