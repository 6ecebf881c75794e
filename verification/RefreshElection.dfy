/** The installation-wide refresh election of `UpdateService::check` (src/application/update.rs). */
module RefreshElection {
  // With the atomic `begin_refresh` of the state store (src/ports/update.rs), as a state machine over any number of
  // startup and explicit checks that interleave freely and may die at any point.

  import opened Options

  type Check = nat

  datatype Kind = HomebrewFormula | StandaloneArchive | SourceOrUnknown

  /** An explicit check forces a refresh; a startup check names the generation it observed. */
  datatype Mode = Explicit | Startup(enabled: bool, releaseBuild: bool, interactive: bool)

  datatype Stage =
    | Idle                      // before load
    | Loaded(observed: nat)     // after load, before try_lock
    | Locked(observed: nat)     // refresh lease held, before begin_refresh
    | Elected(observed: nat, generation: nat)  // begin_refresh returned this generation, before the fetch
    | Fetching(observed: nat, generation: nat) // inside latest_stable
    | Recording                 // release observed, before record_success and the lease drop
    | Cached | InProgress | Coalesced(observed: nat) | Refreshed | Failed

  datatype Checker = Checker(kind: Kind, mode: Mode, stage: Stage)

  /** One fetch of release metadata: who, why, the generation it had observed and the one it was elected for. */
  datatype Fetch = Fetch(check: Check, mode: Mode, observed: nat, generation: nat)

  /** `elected[i]` is the check whose begin_refresh moved the generation from `first + i` to `first + i + 1`. */
  datatype System = System(
    checkers: map<Check, Checker>, lease: Option<Check>,
    generation: nat, first: nat, elected: seq<Check>, fetches: seq<Fetch>)

  const MAX_GENERATION := 0xFFFF_FFFF_FFFF_FFFF

  predicate Initial(system: System) {
    && system.lease == None && system.generation == system.first && system.elected == [] && system.fetches == []
    && forall c :: c in system.checkers ==> system.checkers[c].stage == Idle
  }

  /** Whether a check may use the network. */
  predicate ShouldRefresh(kind: Kind, mode: Mode) {
    match mode
    case Explicit => true
    case Startup(enabled, releaseBuild, interactive) =>
      enabled && releaseBuild && interactive && kind != SourceOrUnknown
  }

  /** What begin_refresh compares: nothing for an explicit check, the observed generation for a startup. */
  predicate StillRepresents(mode: Mode, observed: nat, generation: nat) {
    mode.Startup? ==> observed == generation
  }

  predicate HoldsLease(stage: Stage) { stage.Locked? || stage.Elected? || stage.Fetching? || stage.Recording? }

  /** Every outcome of the next call of check c. */
  predicate Acts(system: System, c: Check, next: Stage)
    requires c in system.checkers
  {
    var kind, mode := system.checkers[c].kind, system.checkers[c].mode;
    match system.checkers[c].stage
    case Idle =>
      next == Failed || next == (if ShouldRefresh(kind, mode) then Loaded(system.generation) else Cached)
    case Loaded(observed) => next == Failed || next == (if system.lease == None then Locked(observed) else InProgress)
    case Locked(observed) =>
      next == Failed ||
      (if !StillRepresents(mode, observed, system.generation) then next == Coalesced(observed)
       else system.generation < MAX_GENERATION && next == Elected(observed, system.generation + 1))
    case Elected(observed, generation) => next == Fetching(observed, generation)
    case Fetching(_, _) => next == Failed || next == Recording
    case Recording => next == Failed || next == Refreshed
    case _ => false
  }

  /** One call of check c, or its death, which fails it. The lease goes with the stages that hold it. */
  predicate StepOf(before: System, after: System, c: Check)
    requires c in before.checkers
  {
    && c in after.checkers && after.checkers == before.checkers[c := after.checkers[c]]
    && (var was, now := before.checkers[c], after.checkers[c];
        && now.kind == was.kind && now.mode == was.mode && (Acts(before, c, now.stage) || now.stage == Failed)
        && after.lease == (if HoldsLease(now.stage) then Some(c)
                           else if HoldsLease(was.stage) then None else before.lease)
        && after.first == before.first
        && after.generation == (if now.stage.Elected? then before.generation + 1 else before.generation)
        && after.elected == (if now.stage.Elected? then before.elected + [c] else before.elected)
        && after.fetches == (if now.stage.Fetching?
                             then before.fetches + [Fetch(c, now.mode, now.stage.observed, now.stage.generation)]
                             else before.fetches))
  }

  ghost predicate Step(before: System, after: System) {
    exists c :: c in before.checkers && StepOf(before, after, c)
  }

  ghost predicate Run(states: seq<System>) {
    && |states| > 0 && Initial(states[0])
    && forall i :: 0 < i < |states| ==> Step(states[i - 1], states[i])
  }

  // ---------------------------------------------------------------------------------------------
  // What every step keeps

  /** The lease belongs to exactly the check whose stage holds it. */
  ghost predicate LeaseIsExclusive(system: System) {
    forall c :: c in system.checkers && HoldsLease(system.checkers[c].stage) ==> system.lease == Some(c)
  }

  predicate GenerationCountsElections(system: System) {
    system.generation == system.first + |system.elected|
  }

  /** The check that was elected for a generation. */
  predicate ElectedFor(system: System, c: Check, generation: nat) {
    system.first < generation <= system.first + |system.elected| &&
    system.elected[generation - system.first - 1] == c
  }

  /** Elected for the generation it fetches for and, if it is a startup check, by naming the one before. */
  predicate RightlyFetched(system: System, fetch: Fetch) {
    && ElectedFor(system, fetch.check, fetch.generation)
    && (fetch.mode.Startup? ==> fetch.generation == fetch.observed + 1)
  }

  ghost predicate FetchesAreElected(system: System) {
    forall i :: 0 <= i < |system.fetches| ==> RightlyFetched(system, system.fetches[i])
  }

  predicate FetchesIncrease(system: System) {
    forall i, j :: 0 <= i < j < |system.fetches| ==> system.fetches[i].generation < system.fetches[j].generation
  }

  /** An elected check was elected last, and no fetch has used its generation yet. */
  ghost predicate ElectionIsFresh(system: System) {
    forall c :: c in system.checkers && system.checkers[c].stage.Elected? ==> FreshlyElected(system, c)
  }

  ghost predicate FreshlyElected(system: System, c: Check)
    requires c in system.checkers && system.checkers[c].stage.Elected?
  {
    var checker := system.checkers[c];
    && checker.stage.generation == system.generation && ElectedFor(system, c, system.generation)
    && (checker.mode.Startup? ==> system.generation == checker.stage.observed + 1)
    && forall i :: 0 <= i < |system.fetches| ==> system.fetches[i].generation < system.generation
  }

  /** A generation a check observed is not ahead of the current one, and a coalesced one is behind it. */
  predicate ObservedInPast(system: System, stage: Stage) {
    && (stage.Loaded? || stage.Locked? ==> system.first <= stage.observed <= system.generation)
    && (stage.Coalesced? ==> system.first <= stage.observed < system.generation)
  }

  ghost predicate ObservationsArePast(system: System) {
    forall c :: c in system.checkers ==> ObservedInPast(system, system.checkers[c].stage)
  }

  /** Not elected yet, or turned away without an election. A check that failed may have been elected before. */
  predicate Unelected(stage: Stage) {
    stage.Idle? || stage.Loaded? || stage.Locked? || stage.Cached? || stage.InProgress? || stage.Coalesced?
  }

  ghost predicate OnlyElectedAreListed(system: System) {
    forall c :: c in system.checkers && Unelected(system.checkers[c].stage) ==> c !in system.elected
  }

  ghost predicate Invariant(system: System) {
    && LeaseIsExclusive(system) && GenerationCountsElections(system)
    && FetchesAreElected(system) && FetchesIncrease(system) && ElectionIsFresh(system)
    && ObservationsArePast(system) && OnlyElectedAreListed(system)
  }

  lemma LeaseStaysExclusive(before: System, after: System, c: Check)
    requires LeaseIsExclusive(before) && c in before.checkers && StepOf(before, after, c)
    ensures LeaseIsExclusive(after)
  {
    forall d | d in after.checkers && HoldsLease(after.checkers[d].stage)
      ensures after.lease == Some(d)
    {
      if d != c {
        assert before.lease == Some(d);
        assert !HoldsLease(before.checkers[c].stage);
      }
    }
  }

  lemma ElectionsStay(before: System, after: System, c: Check, d: Check, generation: nat)
    requires c in before.checkers && StepOf(before, after, c) && ElectedFor(before, d, generation)
    ensures ElectedFor(after, d, generation)
  {
  }

  lemma FetchesStayRight(before: System, after: System, c: Check)
    requires Invariant(before) && c in before.checkers && StepOf(before, after, c)
    ensures GenerationCountsElections(after) && FetchesAreElected(after) && FetchesIncrease(after)
  {
    if after.checkers[c].stage.Fetching? {
      assert FreshlyElected(before, c);
    }
    forall i | 0 <= i < |after.fetches|
      ensures RightlyFetched(after, after.fetches[i])
    {
      if i < |before.fetches| {
        assert RightlyFetched(before, before.fetches[i]);
        ElectionsStay(before, after, c, before.fetches[i].check, before.fetches[i].generation);
      }
    }
  }

  lemma NewElectionIsFresh(before: System, after: System, c: Check)
    requires GenerationCountsElections(before) && FetchesAreElected(before)
    requires c in before.checkers && StepOf(before, after, c) && after.checkers[c].stage.Elected?
    ensures FreshlyElected(after, c)
  {
    assert forall i :: 0 <= i < |before.fetches| ==> RightlyFetched(before, before.fetches[i]);
  }

  lemma OldElectionStaysFresh(before: System, after: System, c: Check, d: Check)
    requires LeaseIsExclusive(before) && c in before.checkers && StepOf(before, after, c)
    requires d in before.checkers && d != c && before.checkers[d].stage.Elected? && FreshlyElected(before, d)
    ensures FreshlyElected(after, d)
  {
    assert before.lease == Some(d);
    assert !HoldsLease(before.checkers[c].stage) && !after.checkers[c].stage.Fetching?;
  }

  lemma ElectionStaysFresh(before: System, after: System, c: Check)
    requires Invariant(before) && c in before.checkers && StepOf(before, after, c)
    ensures ElectionIsFresh(after)
  {
    forall d | d in after.checkers && after.checkers[d].stage.Elected?
      ensures FreshlyElected(after, d)
    {
      if d == c { NewElectionIsFresh(before, after, c); } else { OldElectionStaysFresh(before, after, c, d); }
    }
  }

  lemma ObservationsStayPast(before: System, after: System, c: Check)
    requires GenerationCountsElections(before) && ObservationsArePast(before)
    requires c in before.checkers && StepOf(before, after, c)
    ensures ObservationsArePast(after)
  {
    forall d | d in after.checkers
      ensures ObservedInPast(after, after.checkers[d].stage)
    {
      assert ObservedInPast(before, before.checkers[d].stage);
    }
  }

  lemma OnlyElectedStayListed(before: System, after: System, c: Check)
    requires OnlyElectedAreListed(before) && c in before.checkers && StepOf(before, after, c)
    ensures OnlyElectedAreListed(after)
  {
    forall d | d in after.checkers && Unelected(after.checkers[d].stage)
      ensures d !in after.elected
    {
      assert Unelected(before.checkers[d].stage);
    }
  }

  lemma {:induction false} InvariantAlongRuns(states: seq<System>, i: nat)
    requires Run(states) && i < |states|
    ensures Invariant(states[i])
  {
    if i > 0 {
      InvariantAlongRuns(states, i - 1);
      var before, after := states[i - 1], states[i];
      var c :| c in before.checkers && StepOf(before, after, c);
      LeaseStaysExclusive(before, after, c);
      FetchesStayRight(before, after, c);
      ElectionStaysFresh(before, after, c);
      ObservationsStayPast(before, after, c);
      OnlyElectedStayListed(before, after, c);
    }
  }

  // ---------------------------------------------------------------------------------------------
  // Safety over whole runs

  /** Two checks never fetch at the same time. */
  lemma OneFetchAtATime(states: seq<System>, i: nat, c: Check, d: Check)
    requires Run(states) && i < |states| && c in states[i].checkers && d in states[i].checkers
    requires states[i].checkers[c].stage.Fetching? && states[i].checkers[d].stage.Fetching?
    ensures c == d
  {
    InvariantAlongRuns(states, i);
    assert states[i].lease == Some(c) && states[i].lease == Some(d);
  }

  /** Every fetch has a generation increment of its own, made by the check that fetches. */
  lemma EveryFetchHasItsOwnElection(states: seq<System>, i: nat, f: nat, g: nat)
    requires Run(states) && i < |states| && f < |states[i].fetches| && g < |states[i].fetches|
    ensures ElectedFor(states[i], states[i].fetches[f].check, states[i].fetches[f].generation)
    ensures f != g ==> states[i].fetches[f].generation != states[i].fetches[g].generation
  {
    InvariantAlongRuns(states, i);
    assert RightlyFetched(states[i], states[i].fetches[f]);
  }

  /** Among the startup checks that observed one generation, at most one ever fetches. */
  lemma OneStartupFetchPerGeneration(states: seq<System>, i: nat, f: nat, g: nat)
    requires Run(states) && i < |states| && f < |states[i].fetches| && g < |states[i].fetches|
    requires states[i].fetches[f].mode.Startup? && states[i].fetches[g].mode.Startup?
    requires states[i].fetches[f].observed == states[i].fetches[g].observed
    ensures f == g
  {
    InvariantAlongRuns(states, i);
    assert RightlyFetched(states[i], states[i].fetches[f]) && RightlyFetched(states[i], states[i].fetches[g]);
  }

  /** A startup check is told to coalesce only if another check was elected for the generation it had observed. */
  lemma CoalescedMeansAnotherWasElected(states: seq<System>, i: nat, c: Check) returns (winner: Check)
    requires Run(states) && i < |states| && c in states[i].checkers && states[i].checkers[c].stage.Coalesced?
    ensures winner != c && ElectedFor(states[i], winner, states[i].checkers[c].stage.observed + 1)
  {
    InvariantAlongRuns(states, i);
    assert ObservedInPast(states[i], states[i].checkers[c].stage);
    winner := states[i].elected[states[i].checkers[c].stage.observed - states[i].first];
  }

  // ---------------------------------------------------------------------------------------------
  // Who uses the network at all

  /** Asked for by the user, or the startup of an installed release in a terminal with updates switched on. */
  predicate Wanted(checker: Checker) {
    checker.mode == Explicit ||
    (checker.mode == Startup(true, true, true) && checker.kind in {HomebrewFormula, StandaloneArchive})
  }

  /** On the way to the network or back from it. */
  predicate Refreshing(stage: Stage) {
    HoldsLease(stage) || stage.Loaded? || stage.InProgress? || stage.Coalesced? || stage.Refreshed?
  }

  /** Every check is on the way that its mode and installation call for. */
  ghost predicate WayIsRight(system: System) {
    forall c :: c in system.checkers ==>
      (if Wanted(system.checkers[c]) then system.checkers[c].stage != Cached
       else !Refreshing(system.checkers[c].stage) && c !in system.elected)
  }

  /** A fetch is on record under the mode of the check that made it. */
  ghost predicate FetchersAreKnown(system: System) {
    forall i :: 0 <= i < |system.fetches| ==>
      && system.fetches[i].check in system.checkers
      && system.checkers[system.fetches[i].check].mode == system.fetches[i].mode
      && Wanted(system.checkers[system.fetches[i].check])
  }

  lemma WayStaysRight(before: System, after: System, c: Check)
    requires WayIsRight(before) && FetchersAreKnown(before) && c in before.checkers && StepOf(before, after, c)
    ensures WayIsRight(after) && FetchersAreKnown(after)
  {
    forall d | d in after.checkers
      ensures Wanted(after.checkers[d]) == Wanted(before.checkers[d])
      ensures if Wanted(after.checkers[d]) then after.checkers[d].stage != Cached
              else !Refreshing(after.checkers[d].stage) && d !in after.elected
    {
    }
  }

  lemma {:induction false} WayIsRightAlongRuns(states: seq<System>, i: nat)
    requires Run(states) && i < |states|
    ensures WayIsRight(states[i]) && FetchersAreKnown(states[i])
  {
    if i > 0 {
      WayIsRightAlongRuns(states, i - 1);
      var before, after := states[i - 1], states[i];
      var c :| c in before.checkers && StepOf(before, after, c);
      WayStaysRight(before, after, c);
    }
  }

  /**
   * Whatever is elected or fetches was asked for or is the startup of an installed, interactive release with updates
   * switched on. Any other check never holds the lease, and is the only kind that is answered from the cache alone.
   */
  lemma OnlyWantedChecksRefresh(states: seq<System>, i: nat, c: Check)
    requires Run(states) && i < |states| && c in states[i].checkers
    ensures c in states[i].elected ==> Wanted(states[i].checkers[c])
    ensures (exists f :: 0 <= f < |states[i].fetches| && states[i].fetches[f].check == c) ==>
              Wanted(states[i].checkers[c])
    ensures states[i].checkers[c].stage == Cached ==> !Wanted(states[i].checkers[c])
    ensures !Wanted(states[i].checkers[c]) ==>
              states[i].lease != Some(c) && states[i].checkers[c].stage in {Idle, Cached, Failed}
  {
    WayIsRightAlongRuns(states, i);
    HolderHoldsLease(states, i);
    if f :| 0 <= f < |states[i].fetches| && states[i].fetches[f].check == c {
      assert Wanted(states[i].checkers[states[i].fetches[f].check]);
    }
  }

  /** Whom the lease belongs to is in a stage that holds it. */
  lemma {:induction false} HolderHoldsLease(states: seq<System>, i: nat)
    requires Run(states) && i < |states|
    ensures states[i].lease.Some? ==>
              states[i].lease.value in states[i].checkers && HoldsLease(states[i].checkers[states[i].lease.value].stage)
  {
    if i > 0 {
      HolderHoldsLease(states, i - 1);
      var before, after := states[i - 1], states[i];
      var c :| c in before.checkers && StepOf(before, after, c);
    }
  }

  /** A check is told that one is in progress only if another check held the lease then. */
  lemma {:induction false} InProgressMeansAnotherHeldIt(states: seq<System>, i: nat, c: Check) returns (j: nat)
    requires Run(states) && i < |states| && c in states[i].checkers && states[i].checkers[c].stage == InProgress
    ensures j < i && states[j].lease.Some? && states[j].lease.value != c
    ensures states[j].lease.value in states[j].checkers
    ensures HoldsLease(states[j].checkers[states[j].lease.value].stage)
  {
    var before, after := states[i - 1], states[i];
    var d :| d in before.checkers && StepOf(before, after, d);
    if before.checkers[c].stage == InProgress {
      j := InProgressMeansAnotherHeldIt(states, i - 1, c);
    } else {
      HolderHoldsLease(states, i - 1);
      j := i - 1;
    }
  }

  // ---------------------------------------------------------------------------------------------
  // A check that nobody disturbs is answered

  /** How a check ends when nobody disturbs it. */
  function Answer(checker: Checker): Stage { if Wanted(checker) then Refreshed else Cached }

  /** A call of the check that does not fail. */
  ghost predicate Advances(before: System, after: System, c: Check) {
    c in before.checkers && StepOf(before, after, c) && after.checkers[c].stage != Failed
  }

  /** Not answered yet; the lease is free or its own, and the generation is the one it observed. */
  predicate OnItsWay(system: System, c: Check)
    requires c in system.checkers
  {
    var checker := system.checkers[c];
    match checker.stage
    case Idle => Wanted(checker) ==> system.lease == None && system.generation < MAX_GENERATION
    case Loaded(observed) =>
      system.lease == None && system.generation < MAX_GENERATION &&
      StillRepresents(checker.mode, observed, system.generation)
    case Locked(observed) =>
      system.generation < MAX_GENERATION && StillRepresents(checker.mode, observed, system.generation)
    case Elected(_, _) => true
    case Fetching(_, _) => true
    case Recording => true
    case _ => false
  }

  function CallsLeft(checker: Checker): nat {
    match checker.stage
    case Idle => if Wanted(checker) then 6 else 1
    case Loaded(_) => 5
    case Locked(_) => 4
    case Elected(_, _) => 3
    case Fetching(_, _) => 2
    case Recording => 1
    case _ => 0
  }

  /** The fetch that the check has yet to make. */
  function ToFetch(system: System, c: Check): seq<Fetch>
    requires c in system.checkers
  {
    var checker := system.checkers[c];
    match checker.stage
    case Idle =>
      if Wanted(checker) then [Fetch(c, checker.mode, system.generation, system.generation + 1)] else []
    case Loaded(observed) => [Fetch(c, checker.mode, observed, system.generation + 1)]
    case Locked(observed) => [Fetch(c, checker.mode, observed, system.generation + 1)]
    case Elected(observed, generation) => [Fetch(c, checker.mode, observed, generation)]
    case _ => []
  }

  lemma UndisturbedCall(before: System, after: System, c: Check)
    requires WayIsRight(before) && Advances(before, after, c) && OnItsWay(before, c)
    ensures Wanted(after.checkers[c]) == Wanted(before.checkers[c])
    ensures CallsLeft(after.checkers[c]) + 1 == CallsLeft(before.checkers[c])
    ensures if CallsLeft(after.checkers[c]) == 0 then after.checkers[c].stage == Answer(after.checkers[c])
            else OnItsWay(after, c)
    ensures after.fetches + ToFetch(after, c) == before.fetches + ToFetch(before, c)
  {
  }

  /** Where a check is after some of its calls. */
  ghost predicate Nearer(before: System, after: System, c: Check, n: nat) {
    && WayIsRight(after) && FetchersAreKnown(after) && c in before.checkers && c in after.checkers
    && Wanted(after.checkers[c]) == Wanted(before.checkers[c])
    && CallsLeft(after.checkers[c]) + n == CallsLeft(before.checkers[c])
    && (if CallsLeft(after.checkers[c]) == 0 then after.checkers[c].stage == Answer(before.checkers[c])
        else OnItsWay(after, c))
    && after.fetches + ToFetch(after, c) == before.fetches + ToFetch(before, c)
  }

  lemma OneCallNearer(first: System, before: System, after: System, c: Check, n: nat)
    requires Nearer(first, before, c, n) && n < CallsLeft(first.checkers[c]) && Advances(before, after, c)
    ensures Nearer(first, after, c, n + 1)
  {
    WayStaysRight(before, after, c);
    UndisturbedCall(before, after, c);
  }

  lemma {:induction false} UndisturbedCalls(states: seq<System>, i: nat, n: nat, c: Check)
    requires i + n < |states| && Nearer(states[i], states[i], c, 0) && n <= CallsLeft(states[i].checkers[c])
    requires forall k :: i < k <= i + n ==> Advances(states[k - 1], states[k], c)
    ensures Nearer(states[i], states[i + n], c, n)
  {
    if n > 0 {
      UndisturbedCalls(states, i, n - 1, c);
      OneCallNearer(states[i], states[i + n - 1], states[i + n], c, n - 1);
    }
  }

  /**
   * As long as no other check moves and no call fails, a check is answered after exactly as many calls as its stage
   * says: a wanted one refreshes, with one fetch for the generation after the one it observed; any other one answers
   * from the cache at once, without a fetch.
   */
  lemma UndisturbedCheckIsAnswered(states: seq<System>, i: nat, n: nat, c: Check)
    requires Run(states) && i + n < |states| && c in states[i].checkers && OnItsWay(states[i], c)
    requires n == CallsLeft(states[i].checkers[c])
    requires forall k :: i < k <= i + n ==> Advances(states[k - 1], states[k], c)
    ensures c in states[i + n].checkers
    ensures states[i + n].checkers[c].stage == (if Wanted(states[i].checkers[c]) then Refreshed else Cached)
    ensures states[i + n].fetches == states[i].fetches + ToFetch(states[i], c)
  {
    WayIsRightAlongRuns(states, i);
    UndisturbedCalls(states, i, n, c);
    assert ToFetch(states[i + n], c) == [];
  }

  /** And it can always make its next call. */
  lemma NextCallExists(before: System, c: Check) returns (after: System)
    requires WayIsRight(before) && c in before.checkers && OnItsWay(before, c)
    ensures Advances(before, after, c)
  {
    var checker := before.checkers[c];
    var next :=
      match checker.stage
      case Idle => if Wanted(checker) then Loaded(before.generation) else Cached
      case Loaded(observed) => Locked(observed)
      case Locked(observed) => Elected(observed, before.generation + 1)
      case Elected(observed, generation) => Fetching(observed, generation)
      case Fetching(_, _) => Recording
      case _ => Refreshed;
    after := System(
      before.checkers[c := checker.(stage := next)],
      if HoldsLease(next) then Some(c) else if HoldsLease(checker.stage) then None else before.lease,
      if next.Elected? then before.generation + 1 else before.generation, before.first,
      if next.Elected? then before.elected + [c] else before.elected,
      if next.Fetching? then before.fetches + [Fetch(c, checker.mode, next.observed, next.generation)]
      else before.fetches);
  }
}
