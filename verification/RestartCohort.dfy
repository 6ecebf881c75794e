/**
 The durable cohort of sessions that an external upgrade must see restarted
 (`ExternalRestartPending` in src/domain/update.rs).
 */
module RestartCohort {
  import opened Options

  datatype Result<+T> = Ok(value: T) | InvalidExternalRestart

  datatype Version = Version(major: nat, minor: nat, patch: nat) {
    predicate Older(than: Version) {
      major < than.major ||
      (major == than.major && (minor < than.minor || (minor == than.minor && patch < than.patch)))
    }
  }

  type SessionId = nat
  type InstanceId = nat

  datatype Expectation = Expectation(session: SessionId, instance: InstanceId, pid: nat, version: Version)

  datatype Cohort = Cohort(target: Version, operation: nat, expected: seq<Expectation>, acknowledged: seq<Expectation>)

  const MAX_EXPECTATIONS := 32

  // ---------------------------------------------------------------------------------------------
  // Validation

  predicate ValidEntries(target: Version, all: seq<Expectation>) {
    forall i :: 0 <= i < |all| ==> all[i].pid > 0 && all[i].version.Older(target)
  }

  predicate Unique(all: seq<Expectation>) {
    forall i, j :: 0 <= i < j < |all| ==> all[i].session != all[j].session && all[i].instance != all[j].instance
  }

  predicate ValidParts(target: Version, expected: seq<Expectation>, acknowledged: seq<Expectation>) {
    && expected != [] && |expected| + |acknowledged| <= MAX_EXPECTATIONS
    && ValidEntries(target, expected + acknowledged) && Unique(expected + acknowledged)
  }

  function FromParts(target: Version, operation: nat, expected: seq<Expectation>, acknowledged: seq<Expectation>)
    : (r: Result<Cohort>)
  {
    if ValidParts(target, expected, acknowledged) then Ok(Cohort(target, operation, expected, acknowledged))
    else InvalidExternalRestart
  }

  function New(target: Version, operation: nat, expected: seq<Expectation>): (r: Result<Cohort>) {
    FromParts(target, operation, expected, [])
  }

  /** Every cohort that can exist: the fields are private and all constructors validate. */
  predicate Valid(cohort: Cohort) { ValidParts(cohort.target, cohort.expected, cohort.acknowledged) }

  // ---------------------------------------------------------------------------------------------
  // Manual resume

  /** Position of the unfinished expectation of a session, the length of the list if there is none. */
  function PositionOf(expected: seq<Expectation>, session: SessionId): (i: nat)
    ensures i <= |expected|
    ensures i < |expected| ==> expected[i].session == session
    ensures forall k :: 0 <= k < i ==> expected[k].session != session
  {
    if expected == [] then 0
    else if expected[0].session == session then 0
    else 1 + PositionOf(expected[1..], session)
  }

  /** Remove one restored session from the unfinished cohort; `None` when that completed it. */
  function AfterManualResume(cohort: Cohort, session: SessionId): (r: Result<Option<Cohort>>) {
    var index := PositionOf(cohort.expected, session);
    if index == |cohort.expected| then InvalidExternalRestart
    else
      var restored := cohort.expected[index];
      var remaining := cohort.expected[..index] + cohort.expected[index + 1..];
      if remaining == [] then Ok(None)
      else
        match FromParts(cohort.target, cohort.operation, remaining, cohort.acknowledged + [restored])
        case Ok(next) => Ok(Some(next))
        case InvalidExternalRestart => InvalidExternalRestart
  }

  // ---------------------------------------------------------------------------------------------
  // One resume

  function Sessions(entries: seq<Expectation>): set<SessionId> {
    set i | 0 <= i < |entries| :: entries[i].session
  }

  /** All members of the cohort, finished or not. */
  function Members(cohort: Cohort): multiset<Expectation> { multiset(cohort.expected + cohort.acknowledged) }

  /** The list with its i-th entry moved to the end. */
  function Rotated(all: seq<Expectation>, i: nat): seq<Expectation>
    requires i < |all|
  {
    all[..i] + all[i + 1..] + [all[i]]
  }

  /** Acknowledging an entry only moves it to the end of the combined list. */
  lemma AcknowledgingRotates(expected: seq<Expectation>, acknowledged: seq<Expectation>, i: nat)
    requires i < |expected|
    ensures expected[..i] + expected[i + 1..] + (acknowledged + [expected[i]]) == Rotated(expected + acknowledged, i)
  {
  }

  lemma RotationPermutes(all: seq<Expectation>, i: nat)
    requires i < |all|
    ensures multiset(Rotated(all, i)) == multiset(all)
  {
    assert all == all[..i] + [all[i]] + all[i + 1..];
  }

  lemma RotationKeepsValidity(target: Version, all: seq<Expectation>, i: nat)
    requires i < |all| && ValidEntries(target, all) && Unique(all)
    ensures ValidEntries(target, Rotated(all, i)) && Unique(Rotated(all, i))
  {
    var rotated := Rotated(all, i);
    assert forall k :: 0 <= k < |all| ==> rotated[k] == all[if k < i then k else if k < |all| - 1 then k + 1 else i];
  }

  lemma SessionsWithout(expected: seq<Expectation>, i: nat)
    requires i < |expected| && Unique(expected)
    ensures Sessions(expected[..i] + expected[i + 1..]) == Sessions(expected) - {expected[i].session}
  {
    var rest := expected[..i] + expected[i + 1..];
    forall s | s in Sessions(expected) && s != expected[i].session
      ensures s in Sessions(rest)
    {
      var k :| 0 <= k < |expected| && expected[k].session == s;
      assert rest[if k < i then k else k - 1] == expected[k];
    }
    forall s | s in Sessions(rest)
      ensures s in Sessions(expected) && s != expected[i].session
    {
      var k :| 0 <= k < |rest| && rest[k].session == s;
      assert rest[k] == expected[if k < i then k else k + 1];
    }
  }

  /** What the cohort is after one member resumed. */
  predicate OneLess(before: Cohort, after: Cohort, session: SessionId) {
    && Valid(after) && after.target == before.target && after.operation == before.operation
    && Members(after) == Members(before)
    && |after.expected| == |before.expected| - 1
    && Sessions(after.expected) == Sessions(before.expected) - {session}
  }

  lemma AcknowledgeEntry(cohort: Cohort, i: nat)
    requires Valid(cohort) && i < |cohort.expected|
    ensures var remaining := cohort.expected[..i] + cohort.expected[i + 1..];
            var acknowledged := cohort.acknowledged + [cohort.expected[i]];
            && ValidEntries(cohort.target, remaining + acknowledged) && Unique(remaining + acknowledged)
            && multiset(remaining + acknowledged) == Members(cohort)
            && Sessions(remaining) == Sessions(cohort.expected) - {cohort.expected[i].session}
  {
    var all := cohort.expected + cohort.acknowledged;
    assert Unique(cohort.expected) by {
      assert forall k :: 0 <= k < |cohort.expected| ==> all[k] == cohort.expected[k];
    }
    AcknowledgingRotates(cohort.expected, cohort.acknowledged, i);
    RotationKeepsValidity(cohort.target, all, i);
    RotationPermutes(all, i);
    SessionsWithout(cohort.expected, i);
  }

  /** The cohort with one entry acknowledged, if others are left. */
  lemma NextCohort(cohort: Cohort, i: nat)
    requires Valid(cohort) && i < |cohort.expected| && |cohort.expected| > 1
    ensures var remaining := cohort.expected[..i] + cohort.expected[i + 1..];
            var acknowledged := cohort.acknowledged + [cohort.expected[i]];
            var next := Cohort(cohort.target, cohort.operation, remaining, acknowledged);
            && FromParts(cohort.target, cohort.operation, remaining, acknowledged) == Ok(next)
            && remaining != [] && OneLess(cohort, next, cohort.expected[i].session)
  {
    AcknowledgeEntry(cohort, i);
  }

  lemma LastCohort(cohort: Cohort, i: nat)
    requires i < |cohort.expected| && |cohort.expected| == 1
    ensures cohort.expected[..i] + cohort.expected[i + 1..] == []
  {
  }

  lemma PositionFinds(expected: seq<Expectation>, session: SessionId)
    ensures PositionOf(expected, session) < |expected| <==> session in Sessions(expected)
  {
  }

  /** A resume is accepted exactly for an unfinished member, and completes the cohort exactly at the last one. */
  lemma ResumeOne(cohort: Cohort, session: SessionId)
    requires Valid(cohort)
    ensures var r := AfterManualResume(cohort, session);
            if session !in Sessions(cohort.expected) then r == InvalidExternalRestart
            else if |cohort.expected| == 1 then r == Ok(None)
            else r.Ok? && r.value.Some? && OneLess(cohort, r.value.value, session)
  {
    var i := PositionOf(cohort.expected, session);
    PositionFinds(cohort.expected, session);
    if i < |cohort.expected| {
      if |cohort.expected| == 1 {
        LastCohort(cohort, i);
      } else {
        NextCohort(cohort, i);
      }
    }
  }

  // ---------------------------------------------------------------------------------------------
  // Any order of resumes

  /** Resume several sessions one after another. A finished cohort accepts nothing more. */
  function ResumeAll(cohort: Cohort, order: seq<SessionId>): (r: Result<Option<Cohort>>)
    decreases |order|
  {
    if order == [] then Ok(Some(cohort))
    else
      match AfterManualResume(cohort, order[0])
      case Ok(Some(next)) => ResumeAll(next, order[1..])
      case Ok(None) => if |order| == 1 then Ok(None) else InvalidExternalRestart
      case InvalidExternalRestart => InvalidExternalRestart
  }

  predicate Distinct(order: seq<SessionId>) { forall i, j :: 0 <= i < j < |order| ==> order[i] != order[j] }

  predicate Unfinished(cohort: Cohort, order: seq<SessionId>) {
    Distinct(order) && forall i :: 0 <= i < |order| ==> order[i] in Sessions(cohort.expected)
  }

  function SetOf(order: seq<SessionId>): set<SessionId> { set i | 0 <= i < |order| :: order[i] }

  lemma UnfinishedTail(before: Cohort, after: Cohort, order: seq<SessionId>)
    requires order != [] && Sessions(after.expected) == Sessions(before.expected) - {order[0]}
    requires order[0] in Sessions(before.expected)
    ensures Unfinished(before, order) <==> Unfinished(after, order[1..])
  {
    var rest := order[1..];
    assert forall i :: 0 <= i < |rest| ==> rest[i] == order[i + 1];
    if Unfinished(after, rest) {
      assert forall i :: 0 < i < |order| ==> order[i] == rest[i - 1] && order[i] in Sessions(after.expected);
    }
  }

  lemma SetOfTail(order: seq<SessionId>)
    requires order != []
    ensures SetOf(order) == {order[0]} + SetOf(order[1..])
  {
    forall s | s in SetOf(order) && s != order[0]
      ensures s in SetOf(order[1..])
    {
      var i :| 0 <= i < |order| && order[i] == s;
      assert order[1..][i - 1] == s;
    }
  }

  lemma OneSession(cohort: Cohort, order: seq<SessionId>)
    requires |cohort.expected| == 1 && |order| > 1
    requires forall i :: 0 <= i < |order| ==> order[i] in Sessions(cohort.expected)
    ensures !Distinct(order)
  {
    assert order[0] == cohort.expected[0].session && order[1] == cohort.expected[0].session;
  }

  /**
   Resuming distinct members in any order always succeeds. While the cohort is unfinished its union of
   expected and acknowledged entries is unchanged, and exactly the resumed sessions are no longer
   expected; it completes exactly at the last member.
   */
  lemma {:induction false} MembersResumeInAnyOrder(cohort: Cohort, order: seq<SessionId>)
    requires Valid(cohort) && Unfinished(cohort, order)
    ensures |order| <= |cohort.expected|
    ensures var r := ResumeAll(cohort, order);
            if |order| == |cohort.expected| then r == Ok(None)
            else r.Ok? && r.value.Some? && Valid(r.value.value) && Members(r.value.value) == Members(cohort) &&
                 Sessions(r.value.value.expected) == Sessions(cohort.expected) - SetOf(order)
    decreases |order|
  {
    if order != [] {
      ResumeOne(cohort, order[0]);
      if |cohort.expected| > 1 {
        var next := AfterManualResume(cohort, order[0]).value.value;
        UnfinishedTail(cohort, next, order);
        MembersResumeInAnyOrder(next, order[1..]);
        SetOfTail(order);
      } else {
        if |order| > 1 { OneSession(cohort, order); }
      }
    }
  }

  /** Conversely, whatever is accepted was a list of distinct members: unknown and repeated sessions are rejected. */
  lemma {:induction false} OnlyMembersResume(cohort: Cohort, order: seq<SessionId>)
    requires Valid(cohort) && ResumeAll(cohort, order).Ok?
    ensures Unfinished(cohort, order) && |order| <= |cohort.expected|
    decreases |order|
  {
    if order != [] {
      ResumeOne(cohort, order[0]);
      if |cohort.expected| > 1 {
        var next := AfterManualResume(cohort, order[0]).value.value;
        OnlyMembersResume(next, order[1..]);
        UnfinishedTail(cohort, next, order);
      }
    }
  }
}
