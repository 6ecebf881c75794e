/**
 * Submission preflights: the account of one submission, kept from what the scheduler was told and what it
 * answered, and how it goes with the scheduler's state.
 */
module Preflights {
  import opened Options
  import opened AttachmentKeys

  /** Submissions are served in the order of their identifiers. */
  type SubmissionId = nat

  datatype Verdict = IsAvailable | IsInCloud | IsDownloading | Failed

  datatype Purpose = Background | SubmissionPreflight(id: SubmissionId)

  datatype InFlight = InFlight(id: nat, purpose: Purpose, keys: seq<Key>, epoch: nat)

  datatype Preflight = Preflight(remaining: seq<Key>, inaccessible: nat)

  /** Submission and number of keys that were not proven available. */
  datatype Outcome = Outcome(id: SubmissionId, inaccessible: nat)

  /** A batch of checks that the scheduler asks for. */
  datatype Batch = Batch(id: nat, purpose: Purpose, checks: seq<Key>)

  const PREFLIGHT_BATCH_SIZE := 32

  // ---------------------------------------------------------------------------------------------
  // The account of one submission

  datatype Event =
    | Began(id: SubmissionId, keys: seq<Key>)
    | Sent(id: SubmissionId, keys: seq<Key>)
    | Answered(id: SubmissionId, keys: seq<Key>, returned: map<Key, Verdict>)
    | Reported(id: SubmissionId, inaccessible: nat)

  /** What happened to a submission since it last began: batches sent, keys answered, outcomes reported. */
  datatype Account = Account(begun: nat, captured: seq<Key>, batches: seq<seq<Key>>, answered: seq<Key>,
                             unproven: nat, reports: seq<nat>)

  predicate ProvenAvailable(key: Key, returned: map<Key, Verdict>) {
    key in returned && returned[key] == IsAvailable
  }

  /** Keys that were not proven available; a missing answer counts. */
  function Failures(keys: seq<Key>, returned: map<Key, Verdict>): (n: nat)
    ensures n <= |keys|
  {
    if keys == [] then 0
    else Failures(keys[..|keys| - 1], returned) + if ProvenAvailable(keys[|keys| - 1], returned) then 0 else 1
  }

  lemma FailuresOfMore(keys: seq<Key>, i: nat, returned: map<Key, Verdict>)
    requires i < |keys|
    ensures Failures(keys[..i + 1], returned) ==
            Failures(keys[..i], returned) + if ProvenAvailable(keys[i], returned) then 0 else 1
  {
    assert keys[..i + 1][..i] == keys[..i];
  }

  function Applied(account: Account, event: Event): Account {
    match event
    case Began(_, keys) => Account(account.begun + 1, keys, [], [], 0, [])
    case Sent(_, keys) => account.(batches := account.batches + [keys])
    case Answered(_, keys, returned) =>
      account.(answered := account.answered + keys, unproven := account.unproven + Failures(keys, returned))
    case Reported(_, n) => account.(reports := account.reports + [n])
  }

  function Tally(log: seq<Event>, id: SubmissionId): Account {
    if log == [] then Account(0, [], [], [], 0, [])
    else
      var before, event := Tally(log[..|log| - 1], id), log[|log| - 1];
      if event.id == id then Applied(before, event) else before
  }

  function Flatten(batches: seq<seq<Key>>): seq<Key> {
    if batches == [] then [] else Flatten(batches[..|batches| - 1]) + batches[|batches| - 1]
  }

  lemma TallyOfMore(log: seq<Event>, event: Event, id: SubmissionId)
    ensures Tally(log + [event], id) == if event.id == id then Applied(Tally(log, id), event) else Tally(log, id)
  {
    assert (log + [event])[..|log|] == log;
  }

  lemma FlattenOfMore(batches: seq<seq<Key>>, batch: seq<Key>)
    ensures Flatten(batches + [batch]) == Flatten(batches) + batch
  {
    assert (batches + [batch])[..|batches|] == batches;
  }

  // ---------------------------------------------------------------------------------------------
  // What the account and the state have to do with each other

  predicate BatchSizes(batches: seq<seq<Key>>) {
    forall i :: 0 <= i < |batches| ==> 1 <= |batches[i]| <= PREFLIGHT_BATCH_SIZE
  }

  function FlightKeys(keys: Option<seq<Key>>): seq<Key> { if keys.Some? then keys.value else [] }

  function Left(preflight: Option<Preflight>): seq<Key> { if preflight.Some? then preflight.value.remaining else [] }

  /** Batches sent and keys left make up the keys captured; answers and the batch out make up the batches sent. */
  predicate Consistent(account: Account, preflight: Option<Preflight>, flight: Option<seq<Key>>) {
    && account.captured == Flatten(account.batches) + Left(preflight)
    && Flatten(account.batches) == account.answered + FlightKeys(flight)
    && BatchSizes(account.batches)
    && if preflight.Some? then account.reports == [] && preflight.value.inaccessible == account.unproven
       else flight.None? && account.reports == [account.unproven]
  }

  /** A submission that began once is accounted for; a preflight with nothing left to send is in flight. */
  predicate Accounted(account: Account, preflight: Option<Preflight>, flight: Option<seq<Key>>) {
    && (account.begun == 0 ==> preflight.None? && flight.None?)
    && (account.begun == 1 ==> Consistent(account, preflight, flight))
    && (preflight.Some? && preflight.value.remaining == [] ==> flight.Some?)
  }

  function Lookup(preflights: map<SubmissionId, Preflight>, id: SubmissionId): Option<Preflight> {
    if id in preflights then Some(preflights[id]) else None
  }

  function FlightOf(inFlight: Option<InFlight>, id: SubmissionId): Option<seq<Key>> {
    if inFlight.Some? && inFlight.value.purpose == SubmissionPreflight(id) then Some(inFlight.value.keys) else None
  }

  ghost predicate Ledger(log: seq<Event>, preflights: map<SubmissionId, Preflight>, inFlight: Option<InFlight>) {
    forall id: SubmissionId :: Accounted(Tally(log, id), Lookup(preflights, id), FlightOf(inFlight, id))
  }

  // ---------------------------------------------------------------------------------------------
  // Each step keeps the accounts

  lemma BeginKeepsLedger(log: seq<Event>, preflights: map<SubmissionId, Preflight>, inFlight: Option<InFlight>,
                         id: SubmissionId, keys: seq<Key>)
    requires Ledger(log, preflights, inFlight) && keys != []
    ensures Ledger(log + [Began(id, keys)], preflights[id := Preflight(keys, 0)], inFlight)
  {
    forall other: SubmissionId
      ensures Accounted(Tally(log + [Began(id, keys)], other),
                        Lookup(preflights[id := Preflight(keys, 0)], other), FlightOf(inFlight, other))
    {
      TallyOfMore(log, Began(id, keys), other);
      assert Accounted(Tally(log, other), Lookup(preflights, other), FlightOf(inFlight, other));
      if other == id { BeginIsConsistent(Tally(log, id), Lookup(preflights, id), FlightOf(inFlight, id), keys); }
    }
  }

  lemma BeginIsConsistent(account: Account, preflight: Option<Preflight>, flight: Option<seq<Key>>, keys: seq<Key>)
    requires Accounted(account, preflight, flight) && keys != []
    ensures Accounted(Account(account.begun + 1, keys, [], [], 0, []), Some(Preflight(keys, 0)), flight)
  {
    assert Flatten([]) == [];
    assert keys == [] + keys;
  }

  /** A submission without attachments is answered at once. */
  lemma EmptyKeepsLedger(log: seq<Event>, preflights: map<SubmissionId, Preflight>, inFlight: Option<InFlight>,
                         id: SubmissionId)
    requires Ledger(log, preflights, inFlight)
    ensures Ledger(log + [Began(id, [])] + [Reported(id, 0)], preflights, inFlight)
  {
    var begun := log + [Began(id, [])];
    forall other: SubmissionId
      ensures Accounted(Tally(begun + [Reported(id, 0)], other), Lookup(preflights, other), FlightOf(inFlight, other))
    {
      TallyOfMore(log, Began(id, []), other);
      TallyOfMore(begun, Reported(id, 0), other);
      assert Accounted(Tally(log, other), Lookup(preflights, other), FlightOf(inFlight, other));
    }
  }

  lemma BackgroundKeepsLedger(log: seq<Event>, preflights: map<SubmissionId, Preflight>, one: Option<InFlight>,
                              two: Option<InFlight>)
    requires Ledger(log, preflights, one)
    requires one.Some? ==> one.value.purpose == Background
    requires two.Some? ==> two.value.purpose == Background
    ensures Ledger(log, preflights, two)
  {
    forall id: SubmissionId
      ensures Accounted(Tally(log, id), Lookup(preflights, id), FlightOf(two, id))
    {
      assert FlightOf(one, id) == None && FlightOf(two, id) == None;
      assert Accounted(Tally(log, id), Lookup(preflights, id), FlightOf(one, id));
    }
  }

  lemma SendKeepsLedger(log: seq<Event>, preflights: map<SubmissionId, Preflight>, id: SubmissionId, n: nat,
                        batch: InFlight)
    requires Ledger(log, preflights, None) && id in preflights
    requires 1 <= n <= PREFLIGHT_BATCH_SIZE && n <= |preflights[id].remaining|
    requires batch.purpose == SubmissionPreflight(id) && batch.keys == preflights[id].remaining[..n]
    ensures Ledger(log + [Sent(id, batch.keys)],
                   preflights[id := preflights[id].(remaining := preflights[id].remaining[n..])],
                   Some(batch))
  {
    var rest := preflights[id].(remaining := preflights[id].remaining[n..]);
    forall other: SubmissionId
      ensures Accounted(Tally(log + [Sent(id, batch.keys)], other), Lookup(preflights[id := rest], other),
                        FlightOf(Some(batch), other))
    {
      TallyOfMore(log, Sent(id, batch.keys), other);
      assert Accounted(Tally(log, other), Lookup(preflights, other), FlightOf(None, other));
      if other == id { SendIsConsistent(Tally(log, id), preflights[id], n); }
    }
  }

  lemma SendIsConsistent(account: Account, preflight: Preflight, n: nat)
    requires 1 <= n <= PREFLIGHT_BATCH_SIZE && n <= |preflight.remaining|
    requires Accounted(account, Some(preflight), None)
    ensures var keys := preflight.remaining[..n];
            Accounted(account.(batches := account.batches + [keys]),
                      Some(preflight.(remaining := preflight.remaining[n..])), Some(keys))
  {
    if account.begun == 1 {
      var keys, rest := preflight.remaining[..n], preflight.remaining[n..];
      assert Flatten(account.batches + [keys]) == Flatten(account.batches) + keys by {
        FlattenOfMore(account.batches, keys);
      }
      assert account.captured == Flatten(account.batches) + keys + rest by {
        SplitAgain(Flatten(account.batches), preflight.remaining, n);
      }
      assert Flatten(account.batches) == account.answered by { assert account.answered + [] == account.answered; }
      OneMoreBatch(account.batches, keys);
    }
  }

  lemma OneMoreBatch(batches: seq<seq<Key>>, batch: seq<Key>)
    requires BatchSizes(batches) && 1 <= |batch| <= PREFLIGHT_BATCH_SIZE
    ensures BatchSizes(batches + [batch])
  {
  }

  lemma SplitAgain(sent: seq<Key>, keys: seq<Key>, n: nat)
    requires n <= |keys|
    ensures sent + keys == sent + keys[..n] + keys[n..]
  {
    assert keys == keys[..n] + keys[n..];
  }

  /** What an answer leaves of the preflights, and what it reports. */
  function Settled(preflights: map<SubmissionId, Preflight>, id: SubmissionId, failures: nat)
    : (map<SubmissionId, Preflight>, Option<Outcome>)
  {
    if id !in preflights then (preflights, None)
    else
      var preflight := preflights[id].(inaccessible := preflights[id].inaccessible + failures);
      if preflight.remaining != [] then (preflights[id := preflight], None)
      else (preflights - {id}, Some(Outcome(id, preflight.inaccessible)))
  }

  function ReportOf(outcome: Option<Outcome>): seq<Event> {
    if outcome.Some? then [Reported(outcome.value.id, outcome.value.inaccessible)] else []
  }

  lemma AnswerKeepsLedger(log: seq<Event>, preflights: map<SubmissionId, Preflight>, batch: InFlight,
                          id: SubmissionId, returned: map<Key, Verdict>)
    requires Ledger(log, preflights, Some(batch)) && batch.purpose == SubmissionPreflight(id)
    ensures var (rest, outcome) := Settled(preflights, id, Failures(batch.keys, returned));
            Ledger(log + [Answered(id, batch.keys, returned)] + ReportOf(outcome), rest, None)
  {
    var event := Answered(id, batch.keys, returned);
    var (rest, outcome) := Settled(preflights, id, Failures(batch.keys, returned));
    forall other: SubmissionId
      ensures Accounted(Tally(log + [event] + ReportOf(outcome), other), Lookup(rest, other), FlightOf(None, other))
    {
      TallyOfAnswer(log, event, outcome, other);
      assert Accounted(Tally(log, other), Lookup(preflights, other), FlightOf(Some(batch), other));
      if other == id { AnswerIsConsistent(Tally(log, id), Lookup(preflights, id), batch.keys, returned); }
    }
  }

  lemma TallyOfAnswer(log: seq<Event>, event: Event, outcome: Option<Outcome>, other: SubmissionId)
    requires event.Answered? && (outcome.Some? ==> outcome.value.id == event.id)
    ensures Tally(log + [event] + ReportOf(outcome), other) ==
            if other != event.id then Tally(log, other)
            else if outcome.None? then Applied(Tally(log, other), event)
            else Applied(Applied(Tally(log, other), event), Reported(event.id, outcome.value.inaccessible))
  {
    TallyOfMore(log, event, other);
    if outcome.Some? {
      TallyOfMore(log + [event], Reported(event.id, outcome.value.inaccessible), other);
    } else {
      assert log + [event] + [] == log + [event];
    }
  }

  lemma AnswerIsConsistent(account: Account, preflight: Option<Preflight>, keys: seq<Key>, returned: map<Key, Verdict>)
    requires Accounted(account, preflight, Some(keys))
    ensures var answered := account.(answered := account.answered + keys,
                                     unproven := account.unproven + Failures(keys, returned));
            if preflight.None? then Accounted(answered, None, None)
            else
              var counted := preflight.value.inaccessible + Failures(keys, returned);
              if preflight.value.remaining != [] then
                Accounted(answered, Some(preflight.value.(inaccessible := counted)), None)
              else Accounted(answered.(reports := answered.reports + [counted]), None, None)
  {
    if account.begun == 1 {
      assert account.answered + keys + [] == account.answered + keys;
    }
  }

  // ---------------------------------------------------------------------------------------------
  // What callers see

  /** One call of the scheduler: what it was given and what it returned. */
  datatype Call =
    | Beginning(id: SubmissionId, keys: seq<Key>, effects: seq<Batch>, outcome: Option<Outcome>)
    | Completion(batch: nat, purpose: Purpose, results: seq<(Key, Verdict)>, effects: seq<Batch>,
                 outcome: Option<Outcome>)
    | Other(effects: seq<Batch>)

  function Returned(results: seq<(Key, Verdict)>): map<Key, Verdict> {
    if results == [] then map[]
    else
      var last := results[|results| - 1];
      Returned(results[..|results| - 1])[last.0 := last.1]
  }

  /** The call completes the batch that is out. */
  predicate Answers(call: Call, out: Option<Batch>) {
    call.Completion? && out.Some? && call.batch == out.value.id && call.purpose == out.value.purpose
  }

  /** The batch that was asked for last and is not yet completed. */
  function Out(calls: seq<Call>): Option<Batch> {
    if calls == [] then None
    else OutAfter(Out(calls[..|calls| - 1]), calls[|calls| - 1])
  }

  function OutAfter(out: Option<Batch>, call: Call): Option<Batch> {
    if call.effects != [] then Some(call.effects[|call.effects| - 1])
    else if Answers(call, out) then None else out
  }

  function SentIn(effects: seq<Batch>): seq<Event> {
    if effects == [] then []
    else
      (if effects[0].purpose.SubmissionPreflight? then [Sent(effects[0].purpose.id, effects[0].checks)] else []) +
      SentIn(effects[1..])
  }

  /** What a call means for the submissions; `out` is the batch that was out. */
  function EventsIn(out: Option<Batch>, call: Call): seq<Event> {
    match call
    case Beginning(id, keys, effects, outcome) => [Began(id, keys)] + ReportOf(outcome) + SentIn(effects)
    case Completion(_, purpose, results, effects, outcome) =>
      (if Answers(call, out) && purpose.SubmissionPreflight?
       then [Answered(purpose.id, out.value.checks, Returned(results))] else []) + ReportOf(outcome) + SentIn(effects)
    case Other(effects) => SentIn(effects)
  }

  function EventsOf(calls: seq<Call>): seq<Event> {
    if calls == [] then []
    else EventsOf(calls[..|calls| - 1]) + EventsIn(Out(calls[..|calls| - 1]), calls[|calls| - 1])
  }

  /** One batch at a time: a call asks for one only when none is out. */
  predicate Paced(calls: seq<Call>) {
    calls == [] ||
    (var before, call := calls[..|calls| - 1], calls[|calls| - 1];
     && Paced(before)
     && (call.effects == [] || (|call.effects| == 1 && (Answers(call, Out(before)) || Out(before).None?))))
  }

  lemma OneMoreCall(calls: seq<Call>, call: Call)
    ensures Out(calls + [call]) == OutAfter(Out(calls), call)
    ensures EventsOf(calls + [call]) == EventsOf(calls) + EventsIn(Out(calls), call)
    ensures Paced(calls) &&
            (call.effects == [] || (|call.effects| == 1 && (Answers(call, Out(calls)) || Out(calls).None?)))
            ==> Paced(calls + [call])
  {
    assert (calls + [call])[..|calls|] == calls;
  }

  lemma SentInOne(batch: Batch)
    ensures SentIn([batch]) ==
            if batch.purpose.SubmissionPreflight? then [Sent(batch.purpose.id, batch.checks)] else []
  {
    assert [batch][1..] == [];
  }

  // ---------------------------------------------------------------------------------------------
  // What the accounts promise

  /**
   * In any series of calls: a submission that began once has been sent, batch by batch of at most 32, an initial
   * part of its keys in order, of which an initial part is answered. It reports at most once, and then every key
   * was sent exactly once and answered, and the report counts the keys not proven available.
   */
  lemma PreflightIsExact(calls: seq<Call>, preflights: map<SubmissionId, Preflight>, inFlight: Option<InFlight>,
                         id: SubmissionId)
    requires Ledger(EventsOf(calls), preflights, inFlight) && Tally(EventsOf(calls), id).begun == 1
    ensures var account := Tally(EventsOf(calls), id);
            && Flatten(account.batches) <= account.captured && account.answered <= Flatten(account.batches)
            && BatchSizes(account.batches) && |account.reports| <= 1
            && (account.reports == [] <==> id in preflights)
            && (account.reports != [] ==>
                  Flatten(account.batches) == account.captured == account.answered
                  && account.reports == [account.unproven])
  {
    assert Accounted(Tally(EventsOf(calls), id), Lookup(preflights, id), FlightOf(inFlight, id));
  }
}
