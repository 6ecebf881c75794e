/** Opening or migrating the store under shared and exclusive schema leases (src/cli/runtime.rs). */
module SchemaLease {
  // A state machine over any number of starting processes. One step is one call of one process: a lease acquired or
  // refused, a store opened or refused, a lease dropped, a migration begun or finished. A process may also die at any
  // point, which releases its lease and rolls back a migration that had not finished. Steps of different processes
  // interleave freely.

  type Process = nat

  datatype Lease = NoLease | SharedLease | ExclusiveLease

  datatype Schema = Outdated | Current

  /** Where a process is between two calls. */
  datatype Stage =
    | Starting               // before the first acquire_schema_shared
    | Opening                // shared lease held, before open with Refuse
    | Releasing              // migration required, before the shared lease is dropped
    | WantsExclusive         // before acquire_schema_exclusive
    | Rechecking             // exclusive lease held, before the second open with Refuse
    | BeforeMigration        // exclusive lease held and the schema seen outdated
    | Migrating              // inside open with Allow
    | AfterMigration         // exclusive lease held and the schema current
    | WantsShared            // exclusive lease dropped, before the closing acquire_schema_shared
    | Reopening              // shared lease held again, before the last open
    | Following              // the exclusive lease was busy, before try_acquire_schema_shared
    | Revalidating           // shared lease held, before open with Refuse
    | Opened                 // returned the store with its shared lease
    | Refused                // returned an error
    | Dead                   // crashed or exited

  datatype Runner = Runner(stage: Stage, lease: Lease, store: bool)

  datatype System = System(runners: map<Process, Runner>, schema: Schema, migrations: nat)

  predicate Initial(system: System) {
    && system.migrations == 0
    && forall p :: p in system.runners ==> system.runners[p] == Runner(Starting, NoLease, false)
  }

  /** No process other than this one holds a lease of the given strength. */
  ghost predicate NoOtherExclusive(system: System, p: Process) {
    forall q :: q in system.runners && q != p ==> system.runners[q].lease != ExclusiveLease
  }

  ghost predicate NoOtherLease(system: System, p: Process) {
    forall q :: q in system.runners && q != p ==> system.runners[q].lease == NoLease
  }

  /** An error return or a death: every lease and store the process had is dropped. */
  const FAILED := Runner(Refused, NoLease, false)
  const DEAD := Runner(Dead, NoLease, false)

  /** Every outcome of the next call of process p. */
  ghost predicate Acts(system: System, p: Process, next: Runner)
    requires p in system.runners
  {
    var current := system.schema == Current;
    var kept := system.runners[p].store;
    match system.runners[p].stage
    case Starting =>
      next == FAILED || (next == Runner(Opening, SharedLease, false) && NoOtherExclusive(system, p))
    case Opening =>
      next == FAILED ||
      next == (if current then Runner(Opened, SharedLease, true) else Runner(Releasing, SharedLease, false))
    case Releasing => next == Runner(WantsExclusive, NoLease, false)
    case WantsExclusive =>
      next == FAILED || (next == Runner(Following, NoLease, false) && !NoOtherLease(system, p)) ||
      (next == Runner(Rechecking, ExclusiveLease, false) && NoOtherLease(system, p))
    case Rechecking =>
      next == FAILED || next == Runner(if current then AfterMigration else BeforeMigration, ExclusiveLease, false)
    case BeforeMigration => next == FAILED || next == Runner(Migrating, ExclusiveLease, false)
    case Migrating => // an unfinished migration is rolled back
      next == FAILED || next == Runner(AfterMigration, ExclusiveLease, true)
    case AfterMigration => // the store it migrated with stays open while the exclusive lease is dropped
      next == Runner(WantsShared, NoLease, kept)
    case WantsShared =>
      next == FAILED || (next == Runner(Reopening, SharedLease, kept) && NoOtherExclusive(system, p))
    case Reopening => next == FAILED || (current && next == Runner(Opened, SharedLease, true))
    case Following =>
      next == FAILED || (next == Runner(Revalidating, SharedLease, false) && NoOtherExclusive(system, p))
    case Revalidating => next == FAILED || (current && next == Runner(Opened, SharedLease, true))
    case Opened => false
    case Refused => false
    case Dead => false
  }

  /** The call that finishes a migration is the only one that changes the schema. */
  predicate Migrates(before: Runner, next: Runner) { before.stage == Migrating && next.stage == AfterMigration }

  ghost predicate StepOf(before: System, after: System, p: Process)
    requires p in before.runners
  {
    && p in after.runners && after.runners == before.runners[p := after.runners[p]]
    && (Acts(before, p, after.runners[p]) || after.runners[p] == DEAD)
    && (if Migrates(before.runners[p], after.runners[p])
        then after.schema == Current && after.migrations == before.migrations + 1
        else after.schema == before.schema && after.migrations == before.migrations)
  }

  ghost predicate Step(before: System, after: System) {
    exists p :: p in before.runners && StepOf(before, after, p)
  }

  /** A run: every state follows from the one before it by one step of one process. */
  ghost predicate Run(states: seq<System>) {
    && |states| > 0 && Initial(states[0])
    && forall i :: 0 < i < |states| ==> Step(states[i - 1], states[i])
  }

  // ---------------------------------------------------------------------------------------------
  // What every step keeps

  /** The lease each stage holds. */
  function LeaseAt(stage: Stage): Lease {
    match stage
    case Opening | Releasing | Reopening | Revalidating | Opened => SharedLease
    case Rechecking | BeforeMigration | Migrating | AfterMigration => ExclusiveLease
    case _ => NoLease
  }

  ghost predicate StagesHoldTheirLeases(system: System) {
    forall p :: p in system.runners ==> system.runners[p].lease == LeaseAt(system.runners[p].stage)
  }

  /** An exclusive lease excludes every other lease. */
  ghost predicate Exclusion(system: System) {
    forall p :: p in system.runners && system.runners[p].lease == ExclusiveLease ==> NoOtherLease(system, p)
  }

  /** A stage that relies on the schema version is right about it. */
  predicate Knows(runner: Runner, schema: Schema) {
    && (runner.stage in {BeforeMigration, Migrating} ==> schema == Outdated)
    && (runner.stage in {AfterMigration, WantsShared, Reopening, Opened} ==> schema == Current)
    && (runner.store ==> schema == Current && runner.stage in {AfterMigration, WantsShared, Reopening, Opened})
    && (runner.stage == Opened ==> runner.store)
  }

  ghost predicate Informed(system: System) {
    && (forall p :: p in system.runners ==> Knows(system.runners[p], system.schema))
    && (system.schema == Outdated ==> system.migrations == 0)
    && system.migrations <= 1
  }

  ghost predicate Invariant(system: System) {
    StagesHoldTheirLeases(system) && Exclusion(system) && Informed(system)
  }

  /** One process moved and the others stayed as they were. */
  ghost predicate OnlyMoves(before: System, after: System, p: Process) {
    p in before.runners && after.runners.Keys == before.runners.Keys &&
    forall q :: q in before.runners && q != p ==> after.runners[q] == before.runners[q]
  }

  lemma LeasesStayWithStages(before: System, after: System, p: Process)
    requires StagesHoldTheirLeases(before) && p in before.runners && StepOf(before, after, p)
    ensures OnlyMoves(before, after, p) && StagesHoldTheirLeases(after)
  {
    assert after.runners[p].lease == LeaseAt(after.runners[p].stage);
  }

  lemma ExclusionIsKept(before: System, after: System, p: Process)
    requires Invariant(before) && p in before.runners && StepOf(before, after, p)
    ensures Exclusion(after)
  {
    LeasesStayWithStages(before, after, p);
    assert before.runners[p].lease == LeaseAt(before.runners[p].stage);
    forall q | q in after.runners && after.runners[q].lease == ExclusiveLease
      ensures NoOtherLease(after, q)
    {
      if q != p {
        assert before.runners[q].lease == ExclusiveLease && NoOtherLease(before, q);
        assert before.runners[p].lease == NoLease;
      }
    }
  }

  lemma KnowledgeStaysRight(before: System, after: System, p: Process)
    requires Invariant(before) && p in before.runners && StepOf(before, after, p)
    ensures Informed(after)
    ensures before.schema == Current ==> after.schema == Current && after.migrations == before.migrations
  {
    LeasesStayWithStages(before, after, p);
    var runner := before.runners[p];
    assert Knows(runner, before.schema) && runner.lease == LeaseAt(runner.stage);
    if after.schema != before.schema {
      assert runner.stage == Migrating && NoOtherLease(before, p);
    }
    forall q | q in after.runners
      ensures Knows(after.runners[q], after.schema)
    {
      if q != p {
        assert Knows(before.runners[q], before.schema);
        assert before.runners[q].lease == LeaseAt(before.runners[q].stage);
      }
    }
  }

  lemma StepKeepsInvariant(before: System, after: System)
    requires Invariant(before) && Step(before, after)
    ensures Invariant(after)
    ensures before.schema == Current ==> after.schema == Current && after.migrations == before.migrations
  {
    var p :| p in before.runners && StepOf(before, after, p);
    LeasesStayWithStages(before, after, p);
    ExclusionIsKept(before, after, p);
    KnowledgeStaysRight(before, after, p);
  }

  lemma {:induction false} InvariantAlongRuns(states: seq<System>, i: nat)
    requires Run(states) && i < |states|
    ensures Invariant(states[i])
  {
    if i > 0 {
      InvariantAlongRuns(states, i - 1);
      StepKeepsInvariant(states[i - 1], states[i]);
    }
  }

  lemma CurrentSchemaStays(states: seq<System>, i: nat)
    requires Run(states) && 0 < i < |states| && states[i - 1].schema == Current
    ensures states[i].schema == Current && states[i].migrations == states[i - 1].migrations
  {
    InvariantAlongRuns(states, i - 1);
    StepKeepsInvariant(states[i - 1], states[i]);
  }

  lemma {:induction false} CurrentSchemaIsFinal(states: seq<System>, i: nat, j: nat)
    requires Run(states) && i <= j < |states| && states[i].schema == Current
    ensures states[j].schema == Current && states[j].migrations == states[i].migrations
    decreases j - i
  {
    if i < j {
      CurrentSchemaIsFinal(states, i, j - 1);
      CurrentSchemaStays(states, j);
    }
  }

  // ---------------------------------------------------------------------------------------------
  // Safety over whole runs

  /** A migration runs only while no other process holds any lease, and only on an outdated schema. */
  lemma MigrationRunsAlone(states: seq<System>, i: nat, p: Process)
    requires Run(states) && i < |states| && p in states[i].runners && states[i].runners[p].stage == Migrating
    ensures states[i].runners[p].lease == ExclusiveLease && NoOtherLease(states[i], p)
    ensures states[i].schema == Outdated
    ensures forall q :: q in states[i].runners ==> !states[i].runners[q].store
  {
    InvariantAlongRuns(states, i);
    assert Knows(states[i].runners[p], states[i].schema);
    forall q | q in states[i].runners
      ensures !states[i].runners[q].store
    {
      assert Knows(states[i].runners[q], states[i].schema);
    }
  }

  /** However the processes interleave and crash, the schema is migrated at most once. */
  lemma AtMostOneMigration(states: seq<System>, i: nat)
    requires Run(states) && i < |states|
    ensures states[i].migrations <= 1
    ensures states[i].migrations == 1 ==> states[0].schema == Outdated && states[i].schema == Current
  {
    InvariantAlongRuns(states, i);
    if states[0].schema == Current {
      CurrentSchemaIsFinal(states, 0, i);
    }
  }

  /** A process that returned success holds a shared lease and an open store, and the schema stays current. */
  lemma SuccessIsSafeForever(states: seq<System>, i: nat, j: nat, p: Process)
    requires Run(states) && i <= j < |states| && p in states[i].runners && states[i].runners[p].stage == Opened
    ensures states[i].runners[p] == Runner(Opened, SharedLease, true)
    ensures states[j].schema == Current
    ensures forall q :: q in states[j].runners ==> states[j].runners[q].stage !in {BeforeMigration, Migrating}
  {
    InvariantAlongRuns(states, i);
    assert Knows(states[i].runners[p], states[i].schema);
    CurrentSchemaIsFinal(states, i, j);
    InvariantAlongRuns(states, j);
    forall q | q in states[j].runners
      ensures states[j].runners[q].stage !in {BeforeMigration, Migrating}
    {
      assert Knows(states[j].runners[q], states[j].schema);
    }
  }

  /**
   A store is open without a lease in one place only: between the dropped exclusive lease and the
   closing shared one, where the process that migrated still holds the store it migrated with.
   */
  lemma UnleasedStoreOnlyAfterMigration(states: seq<System>, i: nat, p: Process)
    requires Run(states) && i < |states| && p in states[i].runners
    requires states[i].runners[p].store && states[i].runners[p].lease == NoLease
    ensures states[i].runners[p].stage == WantsShared && states[i].schema == Current
  {
    InvariantAlongRuns(states, i);
    assert Knows(states[i].runners[p], states[i].schema);
    assert states[i].runners[p].lease == LeaseAt(states[i].runners[p].stage);
  }

  // ---------------------------------------------------------------------------------------------
  // Who leaves the ordinary path

  /** Off the path of a process that finds a current store. */
  predicate Detoured(stage: Stage) {
    stage in {Releasing, WantsExclusive, Rechecking, BeforeMigration, Migrating, AfterMigration, WantsShared,
              Reopening, Following, Revalidating}
  }

  /** The only call that leads there finds an outdated store under the first shared lease. */
  lemma DetourStarts(before: System, after: System, p: Process)
    requires StagesHoldTheirLeases(before) && Informed(before) && Step(before, after)
    requires p in before.runners && p in after.runners
    requires Detoured(after.runners[p].stage) && !Detoured(before.runners[p].stage)
    ensures before.runners[p] == Runner(Opening, SharedLease, false) && before.schema == Outdated
    ensures after.runners[p] == Runner(Releasing, SharedLease, false)
  {
    var q :| q in before.runners && StepOf(before, after, q);
    assert Knows(before.runners[p], before.schema) && before.runners[p].lease == LeaseAt(before.runners[p].stage);
    assert q == p;
  }

  /** Every process there has found an outdated store. */
  lemma {:induction false} DetourStartsOutdated(states: seq<System>, i: nat, p: Process) returns (j: nat)
    requires Run(states) && i < |states| && p in states[i].runners && Detoured(states[i].runners[p].stage)
    ensures j < i && p in states[j].runners && p in states[j + 1].runners
    ensures states[j].runners[p] == Runner(Opening, SharedLease, false) && states[j].schema == Outdated
    ensures states[j + 1].runners[p] == Runner(Releasing, SharedLease, false)
  {
    assert i > 0;
    SameProcesses(states, i);
    if Detoured(states[i - 1].runners[p].stage) {
      j := DetourStartsOutdated(states, i - 1, p);
    } else {
      InvariantAlongRuns(states, i - 1);
      j := i - 1;
      DetourStarts(states[j], states[i], p);
    }
  }

  lemma SameProcesses(states: seq<System>, i: nat)
    requires Run(states) && 0 < i < |states|
    ensures states[i].runners.Keys == states[i - 1].runners.Keys
  {
    assert Step(states[i - 1], states[i]);
  }

  /** Nobody asks for or holds the exclusive lease, or waits for one who does, unless the schema was outdated. */
  lemma OutdatedBeforeDetour(states: seq<System>, i: nat, p: Process)
    requires Run(states) && i < |states| && p in states[i].runners
    requires states[i].runners[p].lease == ExclusiveLease || Detoured(states[i].runners[p].stage)
    ensures states[0].schema == Outdated
  {
    InvariantAlongRuns(states, i);
    assert states[i].runners[p].lease == LeaseAt(states[i].runners[p].stage);
    var j := DetourStartsOutdated(states, i, p);
    if states[0].schema == Current { CurrentSchemaIsFinal(states, 0, j); }
  }

  // ---------------------------------------------------------------------------------------------
  // A process that nobody disturbs opens the store

  predicate Gone(stage: Stage) { stage == Refused || stage == Dead }

  /** Not finished, and not waiting for a migration that another process gave up. */
  predicate OnItsWay(stage: Stage, schema: Schema) {
    stage != Opened && !Gone(stage) && (stage in {Following, Revalidating} ==> schema == Current)
  }

  /** How many calls it takes from there to the open store. */
  function CallsLeft(stage: Stage, schema: Schema): nat {
    var current := schema == Current;
    match stage
    case Starting => if current then 2 else 10
    case Opening => if current then 1 else 9
    case Releasing => if current then 6 else 8
    case WantsExclusive => if current then 5 else 7
    case Rechecking => if current then 4 else 6
    case BeforeMigration => 5
    case Migrating => 4
    case AfterMigration => 3
    case WantsShared => 2
    case Reopening => 1
    case Following => 2
    case Revalidating => 1
    case _ => 0
  }

  /** The process makes a call that does not fail. */
  ghost predicate Advances(before: System, after: System, p: Process) {
    p in before.runners && StepOf(before, after, p) && !Gone(after.runners[p].stage)
  }

  /** One call nearer, whatever it answers short of failing. */
  lemma UndisturbedCall(before: System, after: System, p: Process)
    requires Invariant(before) && Advances(before, after, p) && NoOtherLease(before, p)
    requires OnItsWay(before.runners[p].stage, before.schema)
    ensures NoOtherLease(after, p)
    ensures after.runners[p].stage == Opened || OnItsWay(after.runners[p].stage, after.schema)
    ensures CallsLeft(after.runners[p].stage, after.schema) + 1 == CallsLeft(before.runners[p].stage, before.schema)
  {
    assert Knows(before.runners[p], before.schema);
    LeasesStayWithStages(before, after, p);
  }

  /** Where a process is after some of its calls. */
  ghost predicate Nearer(before: System, after: System, p: Process, n: nat) {
    && Invariant(after) && p in before.runners && p in after.runners && NoOtherLease(after, p)
    && (after.runners[p].stage == Opened || OnItsWay(after.runners[p].stage, after.schema))
    && CallsLeft(after.runners[p].stage, after.schema) + n == CallsLeft(before.runners[p].stage, before.schema)
  }

  lemma OneCallNearer(first: System, before: System, after: System, p: Process, n: nat)
    requires Nearer(first, before, p, n) && n < CallsLeft(first.runners[p].stage, first.schema)
    requires Advances(before, after, p)
    ensures Nearer(first, after, p, n + 1)
  {
    StepKeepsInvariant(before, after);
    UndisturbedCall(before, after, p);
  }

  lemma {:induction false} UndisturbedCalls(states: seq<System>, i: nat, n: nat, p: Process)
    requires i + n < |states| && Nearer(states[i], states[i], p, 0)
    requires n <= CallsLeft(states[i].runners[p].stage, states[i].schema)
    requires forall k :: i < k <= i + n ==> Advances(states[k - 1], states[k], p)
    ensures Nearer(states[i], states[i + n], p, n)
  {
    if n > 0 {
      UndisturbedCalls(states, i, n - 1, p);
      OneCallNearer(states[i], states[i + n - 1], states[i + n], p, n - 1);
    }
  }

  /**
   * As long as no other process holds a lease or moves and no call fails, a process opens the store, after exactly as
   * many calls as its stage and the schema say: two from the start on a current schema, ten if it has to migrate.
   */
  lemma UndisturbedProcessOpens(states: seq<System>, i: nat, n: nat, p: Process)
    requires Run(states) && i + n < |states| && p in states[i].runners && NoOtherLease(states[i], p)
    requires OnItsWay(states[i].runners[p].stage, states[i].schema)
    requires n <= CallsLeft(states[i].runners[p].stage, states[i].schema)
    requires forall k :: i < k <= i + n ==> Advances(states[k - 1], states[k], p)
    ensures p in states[i + n].runners
    ensures if n == CallsLeft(states[i].runners[p].stage, states[i].schema)
            then states[i + n].runners[p] == Runner(Opened, SharedLease, true)
            else OnItsWay(states[i + n].runners[p].stage, states[i + n].schema)
  {
    InvariantAlongRuns(states, i);
    UndisturbedCalls(states, i, n, p);
    if states[i + n].runners[p].stage == Opened { OpenedHoldsStore(states, i + n, p); }
  }

  /** And it can always make its next call. */
  lemma NextCallExists(before: System, p: Process) returns (after: System)
    requires Invariant(before) && p in before.runners && NoOtherLease(before, p)
    requires OnItsWay(before.runners[p].stage, before.schema)
    ensures Advances(before, after, p)
  {
    assert Knows(before.runners[p], before.schema);
    var current, kept := before.schema == Current, before.runners[p].store;
    var next :=
      match before.runners[p].stage
      case Starting => Runner(Opening, SharedLease, false)
      case Opening => if current then Runner(Opened, SharedLease, true) else Runner(Releasing, SharedLease, false)
      case Releasing => Runner(WantsExclusive, NoLease, false)
      case WantsExclusive => Runner(Rechecking, ExclusiveLease, false)
      case Rechecking => Runner(if current then AfterMigration else BeforeMigration, ExclusiveLease, false)
      case BeforeMigration => Runner(Migrating, ExclusiveLease, false)
      case Migrating => Runner(AfterMigration, ExclusiveLease, true)
      case AfterMigration => Runner(WantsShared, NoLease, kept)
      case WantsShared => Runner(Reopening, SharedLease, kept)
      case Following => Runner(Revalidating, SharedLease, false)
      case _ => Runner(Opened, SharedLease, true);
    var runners := before.runners[p := next];
    after := if before.runners[p].stage == Migrating then System(runners, Current, before.migrations + 1)
             else System(runners, before.schema, before.migrations);
  }

  lemma OpenedHoldsStore(states: seq<System>, i: nat, p: Process)
    requires Run(states) && i < |states| && p in states[i].runners && states[i].runners[p].stage == Opened
    ensures states[i].runners[p] == Runner(Opened, SharedLease, true)
  {
    InvariantAlongRuns(states, i);
    assert Knows(states[i].runners[p], states[i].schema) && states[i].runners[p].lease == LeaseAt(Opened);
  }

  /** Steps that go on from a state. */
  ghost predicate Goes(from: System, states: seq<System>)
    decreases |states|
  {
    states == [] || (Step(from, states[0]) && Goes(states[0], states[1..]))
  }

  lemma {:induction false} RunGoesOn(states: seq<System>, more: seq<System>)
    requires Run(states) && Goes(states[|states| - 1], more)
    ensures Run(states + more)
    decreases |more|
  {
    if more == [] {
      assert states + more == states;
    } else {
      forall i | 0 < i <= |states|
        ensures Step((states + [more[0]])[i - 1], (states + [more[0]])[i])
      {
        if i < |states| { assert Step(states[i - 1], states[i]); }
      }
      RunGoesOn(states + [more[0]], more[1..]);
      assert states + more == states + [more[0]] + more[1..];
    }
  }

  /** So from every state there is a way to the open store, for a process that is left alone with the leases. */
  lemma {:induction false} WayToOpened(last: System, p: Process) returns (more: seq<System>)
    requires Invariant(last) && p in last.runners && NoOtherLease(last, p)
    requires OnItsWay(last.runners[p].stage, last.schema)
    ensures Goes(last, more) && more != [] && OnlyMoves(last, more[|more| - 1], p)
    ensures more[|more| - 1].runners[p].stage == Opened
    decreases CallsLeft(last.runners[p].stage, last.schema)
  {
    var next := NextCallExists(last, p);
    UndisturbedCall(last, next, p);
    LeasesStayWithStages(last, next, p);
    StepKeepsInvariant(last, next);
    if next.runners[p].stage == Opened {
      more := [next];
    } else {
      var rest := WayToOpened(next, p);
      more := [next] + rest;
      assert more[1..] == rest;
    }
  }

  /** Every run can go on to a state in which such a process has opened the store and nobody else has moved. */
  lemma RunGoesOnToOpened(states: seq<System>, p: Process) returns (more: seq<System>)
    requires Run(states) && p in states[|states| - 1].runners && NoOtherLease(states[|states| - 1], p)
    requires OnItsWay(states[|states| - 1].runners[p].stage, states[|states| - 1].schema)
    ensures Run(states + more) && more != [] && OnlyMoves(states[|states| - 1], more[|more| - 1], p)
    ensures more[|more| - 1].runners[p] == Runner(Opened, SharedLease, true)
  {
    InvariantAlongRuns(states, |states| - 1);
    more := WayToOpened(states[|states| - 1], p);
    RunGoesOn(states, more);
    OpenedHoldsStore(states + more, |states + more| - 1, p);
  }
}
