/** Numbers of attachment occurrences: one counter for images and one for files, never reused. */
module AttachmentNumbering {
  import opened Options

  const MAX_ORDINAL: nat := 0x7FFF_FFFF_FFFF_FFFF

  datatype Kind = Attachment(ordinal: Option<nat>, image: bool, displayName: string) | Presentational(tag: nat)

  datatype Annotation = Annotation(start: nat, end: nat, kind: Kind)

  datatype Counters = Counters(image: nat, file: nat)

  /** An assigned occurrence: its sequence and its number. */
  datatype Occurrence = Occurrence(image: bool, ordinal: nat)

  function Count(counters: Counters, image: bool): nat { if image then counters.image else counters.file }

  /** Neither counter falls. */
  predicate AtMost(a: Counters, b: Counters) { a.image <= b.image && a.file <= b.file }

  predicate Unassigned(annotation: Annotation) { annotation.kind.Attachment? && annotation.kind.ordinal.None? }

  predicate AllAssigned(annotations: seq<Annotation>) {
    forall i :: 0 <= i < |annotations| ==> !Unassigned(annotations[i])
  }

  predicate Assigned(annotation: Annotation) { annotation.kind.Attachment? && annotation.kind.ordinal.Some? }

  function OccurrenceOf(annotation: Annotation): Occurrence
    requires Assigned(annotation)
  {
    Occurrence(annotation.kind.image, annotation.kind.ordinal.value)
  }

  function Occurrences(annotations: seq<Annotation>): set<Occurrence> {
    set i | 0 <= i < |annotations| && Assigned(annotations[i]) :: OccurrenceOf(annotations[i])
  }

  predicate Dominates(counters: Counters, occurrences: set<Occurrence>) {
    forall o :: o in occurrences ==> o.ordinal <= Count(counters, o.image)
  }

  // ---------------------------------------------------------------------------------------------
  // Allocation

  /** How many of the first `n` annotations wait for a number of this sequence. */
  function Waiting(annotations: seq<Annotation>, image: bool, n: nat): (count: nat)
    requires n <= |annotations|
    ensures count <= n
  {
    if n == 0 then 0
    else
      Waiting(annotations, image, n - 1) +
      if Unassigned(annotations[n - 1]) && annotations[n - 1].kind.image == image then 1 else 0
  }

  /** The counters after numbering the first `n` annotations. */
  function Advanced(counters: Counters, annotations: seq<Annotation>, n: nat): Counters
    requires n <= |annotations|
  {
    Counters(counters.image + Waiting(annotations, true, n), counters.file + Waiting(annotations, false, n))
  }

  /** The i-th annotation with its number: the counter after it, if it waits for one. */
  function Numbered(counters: Counters, annotations: seq<Annotation>, i: nat): Annotation
    requires i < |annotations|
  {
    var annotation := annotations[i];
    if !Unassigned(annotation) then annotation
    else
      var ordinal := Count(Advanced(counters, annotations, i + 1), annotation.kind.image);
      annotation.(kind := annotation.kind.(ordinal := Some(ordinal)))
  }

  function AllNumbered(counters: Counters, annotations: seq<Annotation>): (numbered: seq<Annotation>)
    ensures |numbered| == |annotations|
  {
    seq(|annotations|, i requires 0 <= i < |annotations| => Numbered(counters, annotations, i))
  }

  /** All waiting occurrences get numbers, or none does. */
  function Allotted(counters: Counters, annotations: seq<Annotation>): Option<(Counters, seq<Annotation>)> {
    var end := Advanced(counters, annotations, |annotations|);
    if (end.image > counters.image && end.image > MAX_ORDINAL) || (end.file > counters.file && end.file > MAX_ORDINAL)
    then None
    else Some((end, AllNumbered(counters, annotations)))
  }

  lemma {:induction false} WaitingGrows(annotations: seq<Annotation>, image: bool, i: nat, j: nat)
    requires i <= j <= |annotations|
    ensures Waiting(annotations, image, i) <= Waiting(annotations, image, j)
  {
    if i < j { WaitingGrows(annotations, image, i, j - 1); }
  }

  /**
   * Every new number lies above the old counter and at most at the new one, two new numbers of a sequence
   * differ, and what was assigned stays as it was.
   */
  lemma NewNumbersAreFresh(counters: Counters, annotations: seq<Annotation>)
    ensures var numbered, end := AllNumbered(counters, annotations), Advanced(counters, annotations, |annotations|);
            && AtMost(counters, end) && AllAssigned(numbered)
            && (forall i :: 0 <= i < |annotations| ==>
                  if Unassigned(annotations[i]) then IsNew(counters, end, annotations[i], numbered[i])
                  else numbered[i] == annotations[i])
            && (forall i, j :: 0 <= i < j < |annotations| && Unassigned(annotations[i]) && Unassigned(annotations[j])
                  ==> numbered[i].kind.ordinal != numbered[j].kind.ordinal
                      || numbered[i].kind.image != numbered[j].kind.image)
  {
    var numbered, end := AllNumbered(counters, annotations), Advanced(counters, annotations, |annotations|);
    forall i | 0 <= i < |annotations| && Unassigned(annotations[i])
      ensures IsNew(counters, end, annotations[i], numbered[i])
    {
      WaitingGrows(annotations, annotations[i].kind.image, i + 1, |annotations|);
    }
    forall i, j | 0 <= i < j < |annotations| && Unassigned(annotations[i]) && Unassigned(annotations[j])
      ensures numbered[i].kind.ordinal != numbered[j].kind.ordinal || numbered[i].kind.image != numbered[j].kind.image
    {
      WaitingGrows(annotations, annotations[i].kind.image, i + 1, j);
    }
  }

  /** `numbered` is `waiting` with a number between the counters. */
  predicate IsNew(counters: Counters, end: Counters, waiting: Annotation, numbered: Annotation) {
    && Assigned(numbered) && numbered.start == waiting.start && numbered.end == waiting.end
    && waiting.kind.Attachment? && numbered.kind.image == waiting.kind.image
    && numbered.kind.displayName == waiting.kind.displayName
    && Count(counters, numbered.kind.image) < numbered.kind.ordinal.value <= Count(end, numbered.kind.image)
  }

  /** The number at a place, if it got a new one. */
  predicate GotNumber(annotations: seq<Annotation>, numbered: seq<Annotation>, i: nat, image: bool, ordinal: nat)
    requires |numbered| == |annotations|
  {
    i < |annotations| && Unassigned(annotations[i]) && annotations[i].kind.image == image
    && numbered[i].kind.Attachment? && numbered[i].kind.ordinal == Some(ordinal)
  }

  /** Every number between the old and the new counter is given out, in the order of the annotations. */
  lemma {:induction false} NewNumbersFollowOn(counters: Counters, annotations: seq<Annotation>, image: bool,
                                              ordinal: nat, n: nat)
    returns (i: nat)
    requires n <= |annotations|
    requires Count(counters, image) < ordinal <= Count(Advanced(counters, annotations, n), image)
    ensures i < n && GotNumber(annotations, AllNumbered(counters, annotations), i, image, ordinal)
    ensures forall j: nat, other: nat ::
              i < j < n && GotNumber(annotations, AllNumbered(counters, annotations), j, image, other) ==>
              ordinal < other
  {
    if ordinal <= Count(Advanced(counters, annotations, n - 1), image) {
      i := NewNumbersFollowOn(counters, annotations, image, ordinal, n - 1);
    } else {
      i := n - 1;
    }
  }

  /** Numbers run out exactly when one of them would lie above the highest there is. */
  lemma NumbersRunOut(counters: Counters, annotations: seq<Annotation>)
    ensures Allotted(counters, annotations).None? <==>
            exists i: nat, image, ordinal: nat ::
              GotNumber(annotations, AllNumbered(counters, annotations), i, image, ordinal) && ordinal > MAX_ORDINAL
    ensures Allotted(counters, annotations).Some? ==>
              Allotted(counters, annotations).value ==
              (Advanced(counters, annotations, |annotations|), AllNumbered(counters, annotations))
  {
    var end := Advanced(counters, annotations, |annotations|);
    if Allotted(counters, annotations).None? {
      var image := end.image > counters.image && end.image > MAX_ORDINAL;
      var i := NewNumbersFollowOn(counters, annotations, image, Count(end, image), |annotations|);
    }
    NewNumbersAreFresh(counters, annotations);
    forall i: nat, image, ordinal: nat | GotNumber(annotations, AllNumbered(counters, annotations), i, image, ordinal)
      ensures Count(counters, image) < ordinal <= Count(end, image)
    {
      assert IsNew(counters, end, annotations[i], AllNumbered(counters, annotations)[i]);
    }
  }

  // ---------------------------------------------------------------------------------------------
  // Observation

  function Raised(counters: Counters, occurrence: Occurrence): Counters {
    if occurrence.ordinal <= Count(counters, occurrence.image) then counters
    else if occurrence.image then counters.(image := occurrence.ordinal)
    else counters.(file := occurrence.ordinal)
  }

  /** The counters after seeing the first `n` annotations. */
  function Observed(counters: Counters, annotations: seq<Annotation>, n: nat): Counters
    requires n <= |annotations|
  {
    if n == 0 then counters
    else
      var before := Observed(counters, annotations, n - 1);
      if Assigned(annotations[n - 1]) then Raised(before, OccurrenceOf(annotations[n - 1])) else before
  }

  /** Observing never lowers a counter, dominates what it saw, and goes no higher than it must. */
  lemma {:induction false} ObservedDominates(counters: Counters, annotations: seq<Annotation>, n: nat)
    requires n <= |annotations|
    ensures var seen, end := Occurrences(annotations[..n]), Observed(counters, annotations, n);
            && AtMost(counters, end) && Dominates(end, seen)
            && (end.image == counters.image || Occurrence(true, end.image) in seen)
            && (end.file == counters.file || Occurrence(false, end.file) in seen)
  {
    if n > 0 {
      ObservedDominates(counters, annotations, n - 1);
      OneMoreOccurrence(annotations[..n - 1], annotations[n - 1]);
      assert annotations[..n] == annotations[..n - 1] + [annotations[n - 1]];
    }
  }

  lemma OneMoreOccurrence(annotations: seq<Annotation>, annotation: Annotation)
    ensures Occurrences(annotations + [annotation]) ==
            Occurrences(annotations) + if Assigned(annotation) then {OccurrenceOf(annotation)} else {}
  {
    var more := annotations + [annotation];
    assert more[|annotations|] == annotation;
    forall o | o in Occurrences(annotations)
      ensures o in Occurrences(more)
    {
      var i :| 0 <= i < |annotations| && Assigned(annotations[i]) && OccurrenceOf(annotations[i]) == o;
      assert more[i] == annotations[i];
    }
  }

  // ---------------------------------------------------------------------------------------------
  // Uniqueness

  /** No occurrence is among `taken`, and no two are the same. */
  predicate Unique(annotations: seq<Annotation>, taken: set<Occurrence>) {
    && AllAssigned(annotations)
    && (forall i :: 0 <= i < |annotations| && Assigned(annotations[i]) ==> OccurrenceOf(annotations[i]) !in taken)
    && (forall i, j :: 0 <= i < j < |annotations| && Assigned(annotations[i]) && Assigned(annotations[j]) ==>
          OccurrenceOf(annotations[i]) != OccurrenceOf(annotations[j]))
  }

  function Renewed(annotation: Annotation): Annotation {
    if annotation.kind.Attachment? then annotation.(kind := annotation.kind.(ordinal := None)) else annotation
  }

  function AllRenewed(annotations: seq<Annotation>): seq<Annotation> {
    seq(|annotations|, i requires 0 <= i < |annotations| => Renewed(annotations[i]))
  }

  /** Copies marked as new and then numbered are unique, among themselves and against all that is dominated. */
  lemma RenewedAreUnique(counters: Counters, annotations: seq<Annotation>, taken: set<Occurrence>)
    requires Dominates(counters, taken)
    ensures Unique(AllNumbered(counters, AllRenewed(annotations)), taken)
  {
    NewNumbersAreFresh(counters, AllRenewed(annotations));
  }

  // ---------------------------------------------------------------------------------------------
  // The counters as an object

  class AttachmentCounters {
    var image: nat
    var file: nat

    function View(): Counters
      reads this
    {
      Counters(image, file)
    }

    constructor (image: nat, file: nat)
      ensures View() == Counters(image, file)
    {
      this.image, this.file := image, file;
    }

    /** Numbers what waits, in order; on exhaustion neither the counters nor the annotations change. */
    method Assign(annotations: array<Annotation>) returns (ok: bool)
      modifies this, annotations
      ensures var result := Allotted(old(View()), old(annotations[..]));
              && ok == result.Some?
              && View() == (if ok then result.value.0 else old(View()))
              && annotations[..] == (if ok then result.value.1 else old(annotations[..]))
    {
      var given := annotations[..];
      ghost var before := View();
      var done: seq<Annotation> := [];
      var candidateImage: nat, candidateFile: nat := image, file;
      for i := 0 to |given|
        invariant |done| == i && forall k :: 0 <= k < i ==> done[k] == Numbered(before, given, k)
        invariant Counters(candidateImage, candidateFile) == Advanced(before, given, i)
        invariant candidateImage == before.image || candidateImage <= MAX_ORDINAL
        invariant candidateFile == before.file || candidateFile <= MAX_ORDINAL
      {
        var annotation := given[i];
        if Unassigned(annotation) {
          var next := (if annotation.kind.image then candidateImage else candidateFile) + 1;
          if next > MAX_ORDINAL {
            WaitingGrows(given, annotation.kind.image, i + 1, |given|);
            return false;
          }
          annotation := annotation.(kind := annotation.kind.(ordinal := Some(next)));
          if annotation.kind.image { candidateImage := next; } else { candidateFile := next; }
        }
        done := done + [annotation];
      }
      assert done == AllNumbered(before, given);
      forall i | 0 <= i < annotations.Length { annotations[i] := done[i]; }
      image, file := candidateImage, candidateFile;
      ok := true;
      assert annotations[..] == done;
    }

    /** Stops at an occurrence without a number; what it saw before stays observed. */
    method Observe(annotations: seq<Annotation>) returns (ok: bool)
      modifies this
      ensures ok <==> AllAssigned(annotations)
      ensures ok ==> View() == Observed(old(View()), annotations, |annotations|)
      ensures AtMost(old(View()), View())
    {
      for i := 0 to |annotations|
        invariant View() == Observed(old(View()), annotations, i) && AtMost(old(View()), View())
        invariant AllAssigned(annotations[..i])
      {
        if annotations[i].kind.Attachment? {
          if annotations[i].kind.ordinal.None? { return false; }
          var ordinal := annotations[i].kind.ordinal.value;
          if annotations[i].kind.image {
            image := if image < ordinal then ordinal else image;
          } else {
            file := if file < ordinal then ordinal else file;
          }
        }
      }
      ok := true;
    }
  }

  /** Accepts exactly the unique occurrences and adds them to those taken. */
  method ValidateUnique(annotations: seq<Annotation>, taken: set<Occurrence>)
    returns (ok: bool, identities: set<Occurrence>)
    ensures ok <==> Unique(annotations, taken)
    ensures ok ==> identities == taken + Occurrences(annotations)
  {
    identities := taken;
    for i := 0 to |annotations|
      invariant Unique(annotations[..i], taken) && identities == taken + Occurrences(annotations[..i])
    {
      var annotation := annotations[i];
      assert annotations[..i + 1] == annotations[..i] + [annotation];
      OneMoreOccurrence(annotations[..i], annotation);
      if annotation.kind.Attachment? {
        if annotation.kind.ordinal.None? { return false, identities; }
        if OccurrenceOf(annotation) in identities {
          TakenTwice(annotations, taken, i);
          return false, identities;
        }
        assert forall k :: 0 <= k < i && Assigned(annotations[..i][k]) ==>
          OccurrenceOf(annotations[..i][k]) in identities;
        identities := identities + {OccurrenceOf(annotation)};
      }
    }
    assert annotations[..|annotations|] == annotations;
    ok := true;
  }

  lemma TakenTwice(annotations: seq<Annotation>, taken: set<Occurrence>, i: nat)
    requires i < |annotations| && Assigned(annotations[i])
    requires OccurrenceOf(annotations[i]) in taken + Occurrences(annotations[..i])
    ensures !Unique(annotations, taken)
  {
    if OccurrenceOf(annotations[i]) !in taken {
      var k :| 0 <= k < i && Assigned(annotations[..i][k])
               && OccurrenceOf(annotations[..i][k]) == OccurrenceOf(annotations[i]);
      assert annotations[k] == annotations[..i][k];
    }
  }
}
