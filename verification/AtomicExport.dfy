/** Plain-text export by atomic exchange, under interference (src/adapters/export.rs). */
module AtomicExport {
  // The destination folder is split in two: the entry under the destination name, which any other actor may change at
  // any moment, and every other name, which includes the private temporary names. Each system call first lets the
  // other actors act, and may fail, so a contract proved here holds for every interleaving of foreign changes at the
  // destination and for every pattern of failing calls.
  //
  // Every change of the destination, by the export or by others, is appended to a history that replays to what is
  // there, and every change by the export to a log. Both only grow, so a property of all their elements also holds at
  // every moment of the run, a crash included.

  import opened Options

  datatype Kind = Regular | Symlink | Directory | Special

  /** Content-free identity of a file, as compared after a confirmation. */
  datatype Identity = Identity(device: nat, inode: nat, length: nat, modifiedNanos: int)

  datatype Entry = Entry(kind: Kind, identity: Identity, mode: nat, content: string) {
    /** Device and inode, the part of the identity a file keeps for its whole life. */
    function Node(): (nat, nat) { (identity.device, identity.inode) }
  }

  datatype Overwrite = Refuse | RefuseUnlessIdentical | Confirmed(expected: Identity) | Always

  datatype Request = Request(absoluteFile: bool, content: string, overwrite: Overwrite)

  datatype Written = Written(bytes: nat, replaced: bool, alreadyThere: bool)

  datatype Error =
    | InvalidPath | Exists(existing: Identity) | DirectoryMissing | ParentNotDirectory
    | TargetIsDirectory | TargetIsSymlink | TargetNotRegular | Changed
    | ReplaceUnsupported | InstallUnsupported | WrittenUnconfirmed | Displaced(path: string)
    | PermissionDenied | ReadOnly | StorageFull | Io

  datatype Result<+T> = Ok(value: T) | Err(error: Error)

  /** Errors an input or output failure is mapped to. */
  predicate IoError(error: Error) {
    error in {PermissionDenied, ReadOnly, StorageFull, DirectoryMissing, ParentNotDirectory, Io}
  }

  /** Why an exchange did not happen. */
  datatype Errno = NoEntry | Unsupported | Failed(error: Error)

  /** The refusal of an entry that is not a regular file. */
  function Misplaced(kind: Kind): Error {
    match kind
    case Symlink => TargetIsSymlink
    case Directory => TargetIsDirectory
    case _ => TargetNotRegular
  }

  /** One change this export made to the folder. */
  datatype Event =
    | Created(name: string, file: Entry)                       // a new temporary file
    | Exchanged(name: string, placed: Entry, displaced: Entry) // temporary name <-> destination
    | Returned(name: string, placed: Entry, displaced: Entry)  // the exchange undone
    | ModeCopied(name: string, mode: nat)                      // permissions of the exchanged file
    | Installed(name: string, file: Entry, over: Option<Entry>) // temporary name -> destination
    | Unlinked(name: string, entry: Entry)                     // temporary name removed

  const COPIED_MODE_BITS := 0x200 // modulus that keeps the nine permission bits (0o777)

  const NEW_FILE_MODE := 0x1B6 // 0o666

  function CopiedBits(mode: nat): nat { mode % COPIED_MODE_BITS }

  // ---------------------------------------------------------------------------------------------
  // Meaning of a log

  /** Effect of one event on what the temporary names hold. */
  function Apply(held: map<string, Entry>, event: Event): map<string, Entry> {
    match event
    case Created(name, file) => held[name := file]
    case Exchanged(name, placed, displaced) => held[name := displaced]
    case Returned(name, placed, displaced) => held[name := displaced]
    case ModeCopied(name, mode) => held
    case Installed(name, file, over) => held - {name}
    case Unlinked(name, entry) => held - {name}
  }

  /** What the temporary names hold after the logged changes. */
  function Held(log: seq<Event>): map<string, Entry> {
    if log == [] then map[] else Apply(Held(log[..|log| - 1]), log[|log| - 1])
  }

  /** The event acts on what its temporary name really holds; an exchange is undone only directly. */
  predicate Fits(log: seq<Event>, event: Event) {
    var held := Held(log);
    match event
    case Created(name, _) => name !in held
    case Exchanged(name, placed, _) => name in held && held[name] == placed
    case Returned(name, placed, _) => name in held && held[name] == placed && JustExchanged(log, name)
    case ModeCopied(name, _) => name in held && JustExchanged(log, name)
    case Installed(name, file, _) => name in held && held[name] == file
    case Unlinked(name, entry) => name in held && held[name] == entry
  }

  predicate JustExchanged(log: seq<Event>, name: string) {
    |log| > 0 && log[|log| - 1].Exchanged? && log[|log| - 1].name == name
  }

  predicate Consistent(log: seq<Event>) {
    log == [] || (Consistent(log[..|log| - 1]) && Fits(log[..|log| - 1], log[|log| - 1]))
  }

  lemma Appended(log: seq<Event>, event: Event)
    ensures Held(log + [event]) == Apply(Held(log), event)
    ensures Consistent(log + [event]) == (Consistent(log) && Fits(log, event))
  {
    assert (log + [event])[..|log|] == log;
  }

  /** The entry is a file this export created. */
  predicate Own(created: set<(nat, nat)>, entry: Entry) { entry.Node() in created }

  /** The request allows this entry to be replaced: a regular file and, after a confirmation, exactly that one. */
  predicate Authorized(request: Request, entry: Entry) {
    entry.kind == Regular &&
    match request.overwrite
    case Always => true
    case Confirmed(expected) => entry.identity == expected
    case _ => false
  }

  /** The refusal of an entry that an exchange brought out but that may not be replaced. */
  function Unexpected(request: Request, entry: Entry): Error {
    if request.overwrite.Confirmed? then Changed else Misplaced(entry.kind)
  }

  /** The only things the export is ever allowed to do to the folder. */
  predicate Lawful(request: Request, inspected: Option<Entry>, created: set<(nat, nat)>, event: Event) {
    match event
    case Created(_, file) => Own(created, file) && file.kind == Regular
    case Exchanged(_, placed, _) =>
      Own(created, placed) && placed.content == request.content &&
      inspected.Some? && Authorized(request, inspected.value) && placed.mode == CopiedBits(inspected.value.mode)
    case Returned(_, _, _) => true
    case ModeCopied(_, _) => true
    case Installed(_, file, over) =>
      Own(created, file) && file.content == request.content && file.mode == NEW_FILE_MODE && over == None
    case Unlinked(_, entry) => Own(created, entry) || Authorized(request, entry)
  }

  predicate LawfulLog(request: Request, inspected: Option<Entry>, created: set<(nat, nat)>, log: seq<Event>) {
    forall i :: 0 <= i < |log| ==> Lawful(request, inspected, created, log[i])
  }

  /** A run that replaced a file: exactly one authorized entry left the folder, and its mode lives on. */
  predicate ReplacedOne(request: Request, log: seq<Event>) {
    3 <= |log| <= 4 && log[0].Created? && log[1].Exchanged? && log[|log| - 1].Unlinked? &&
    (var name, file, former := log[0].name, log[0].file, log[1].displaced;
     && log[1] == Exchanged(name, file, former)
     && log[|log| - 1] == Unlinked(name, former)
     && Authorized(request, former)
     && (|log| == 3 ==> file.mode == CopiedBits(former.mode))
     && (|log| == 4 ==> log[2] == ModeCopied(name, CopiedBits(former.mode))))
  }

  /** No entry of another actor was moved or removed. */
  predicate OnlyOwnFiles(created: set<(nat, nat)>, log: seq<Event>) {
    forall i :: 0 <= i < |log| ==>
      match log[i]
      case Created(_, file) => Own(created, file)
      case Installed(_, file, _) => Own(created, file)
      case Unlinked(_, entry) => Own(created, entry)
      case _ => false
  }

  predicate InstalledLast(log: seq<Event>) { log != [] && log[|log| - 1].Installed? }

  /** The target was exchanged and is still under the temporary name. */
  predicate Exchanging(log: seq<Event>) {
    |log| == 2 && log[0].Created? && log[1].Exchanged? &&
    log[1].name == log[0].name && log[1].placed == log[0].file
  }

  /** The exchange was undone, and nothing but this export's own file came back to be removed. */
  predicate Restored(created: set<(nat, nat)>, log: seq<Event>) {
    |log| == 4 && Exchanging(log[..2]) && log[2].Returned? && log[3].Unlinked? &&
    log[2].name == log[3].name == log[0].name && log[2].placed == log[1].displaced &&
    log[3].entry == log[2].displaced && Own(created, log[3].entry)
  }

  /** What a finished run did to the folder, for each result it may report. */
  predicate Outcome(request: Request, created: set<(nat, nat)>, log: seq<Event>, result: Result<Written>) {
    match result
    case Ok(written) =>
      && written.bytes == |request.content|
      && (if written.alreadyThere then log == [] && !written.replaced
          else if written.replaced then ReplacedOne(request, log)
          else OnlyOwnFiles(created, log) && InstalledLast(log))
    case Err(Displaced(name)) =>
      && 2 <= |log| <= 3 && Exchanging(log[..2]) && log[0].name == name && name in Held(log)
      && (|log| == 3 ==> (log[2].Returned? || log[2].ModeCopied?) && log[2].name == name)
    case Err(WrittenUnconfirmed) =>
      || log == []
      || ReplacedOne(request, log)
      || (OnlyOwnFiles(created, log) && InstalledLast(log))
      || (Exchanging(log) && Authorized(request, log[1].displaced))
    case Err(_) => OnlyOwnFiles(created, log) || Restored(created, log)
  }

  /** Whether one event takes an entry out of the destination, puts it there, or unlinks it. */
  function Takes(entry: Entry, event: Event): nat {
    if (event.Exchanged? || event.Returned?) && event.displaced == entry then 1 else 0
  }

  function Gives(entry: Entry, event: Event): nat {
    if (event.Exchanged? || event.Returned?) && event.placed == entry then 1
    else if event.Installed? && event.file == entry then 1
    else 0
  }

  function Destroys(entry: Entry, event: Event): nat {
    if event.Unlinked? && event.entry == entry then 1 else 0
  }

  /** The same, counted over a log. */
  function TakenOut(entry: Entry, log: seq<Event>): nat {
    if log == [] then 0 else TakenOut(entry, log[..|log| - 1]) + Takes(entry, log[|log| - 1])
  }

  function GivenBack(entry: Entry, log: seq<Event>): nat {
    if log == [] then 0 else GivenBack(entry, log[..|log| - 1]) + Gives(entry, log[|log| - 1])
  }

  function Destroyed(entry: Entry, log: seq<Event>): nat {
    if log == [] then 0 else Destroyed(entry, log[..|log| - 1]) + Destroys(entry, log[|log| - 1])
  }

  /** The temporary names that hold it. */
  function NamesOf(entry: Entry, held: map<string, Entry>): set<string> {
    set name | name in held && held[name] == entry
  }

  /**
   Conservation: whatever a consistent log took out of the destination was given back to it, was
   unlinked, or still sits under a temporary name. Nothing is lost and nothing is invented.
   */
  lemma {:induction false} ForeignEntriesAreConserved(entry: Entry, log: seq<Event>)
    requires Consistent(log)
    requires forall i :: 0 <= i < |log| && log[i].Created? ==> log[i].file != entry
    ensures TakenOut(entry, log) ==
            GivenBack(entry, log) + Destroyed(entry, log) + |NamesOf(entry, Held(log))|
  {
    if log != [] {
      ForeignEntriesAreConserved(entry, log[..|log| - 1]);
      StepConserves(entry, log[..|log| - 1], log[|log| - 1]);
    }
  }

  lemma StepConserves(entry: Entry, log: seq<Event>, event: Event)
    requires Fits(log, event) && (event.Created? ==> event.file != entry)
    ensures Takes(entry, event) + |NamesOf(entry, Held(log))| ==
            Gives(entry, event) + Destroys(entry, event) + |NamesOf(entry, Apply(Held(log), event))|
  {
    match event
    case Created(name, file) => NamesAfterUpdate(entry, Held(log), name, file);
    case Exchanged(name, _, displaced) => NamesAfterUpdate(entry, Held(log), name, displaced);
    case Returned(name, _, displaced) => NamesAfterUpdate(entry, Held(log), name, displaced);
    case ModeCopied(_, _) =>
    case Installed(name, _, _) => NamesAfterRemoval(entry, Held(log), name);
    case Unlinked(name, _) => NamesAfterRemoval(entry, Held(log), name);
  }

  function HoldsIt(entry: Entry, held: map<string, Entry>, name: string): nat {
    if name in held && held[name] == entry then 1 else 0
  }

  lemma NamesAfterRemoval(entry: Entry, held: map<string, Entry>, name: string)
    ensures |NamesOf(entry, held)| == |NamesOf(entry, held - {name})| + HoldsIt(entry, held, name)
  {
    assert NamesOf(entry, held - {name}) == NamesOf(entry, held) - {name};
    SizeWithout(NamesOf(entry, held), name);
  }

  lemma NamesAfterUpdate(entry: Entry, held: map<string, Entry>, name: string, now: Entry)
    ensures |NamesOf(entry, held[name := now])| + HoldsIt(entry, held, name) ==
            |NamesOf(entry, held)| + if now == entry then 1 else 0
  {
    assert held[name := now] - {name} == held - {name};
    NamesAfterRemoval(entry, held, name);
    NamesAfterRemoval(entry, held[name := now], name);
  }

  lemma SizeWithout(names: set<string>, name: string)
    ensures |names| == |names - {name}| + if name in names then 1 else 0
  {
    if name in names {
      assert names == (names - {name}) + {name};
    } else {
      assert names == names - {name};
    }
  }

  // ---------------------------------------------------------------------------------------------
  // What a finished run means for the files of other actors

  /** A foreign entry that was unlinked is a regular file the request allows to replace, the confirmed one if any. */
  lemma {:induction false} UnlinkedEntriesWereAuthorized(request: Request, inspected: Option<Entry>,
                                                         created: set<(nat, nat)>, log: seq<Event>, entry: Entry)
    requires LawfulLog(request, inspected, created, log) && !Own(created, entry) && Destroyed(entry, log) > 0
    ensures entry.kind == Regular
    ensures request.overwrite == Always || request.overwrite == Confirmed(entry.identity)
  {
    if Destroys(entry, log[|log| - 1]) == 0 {
      UnlinkedEntriesWereAuthorized(request, inspected, created, log[..|log| - 1], entry);
    }
  }

  lemma {:induction false} OwnLogHoldsOwnFiles(created: set<(nat, nat)>, log: seq<Event>, name: string)
    requires OnlyOwnFiles(created, log) && name in Held(log)
    ensures Own(created, Held(log)[name])
  {
    var event := log[|log| - 1];
    if !(event.Created? && event.name == name) {
      OwnLogHoldsOwnFiles(created, log[..|log| - 1], name);
    }
  }

  lemma HeldWhileExchanging(log: seq<Event>)
    requires 2 <= |log| && Exchanging(log[..2])
    ensures Held(log[..2]) == map[log[0].name := log[1].displaced]
  {
    assert log[..2][..1] == [log[0]];
    assert [log[0]][..0] == [];
    assert Held([log[0]]) == map[log[0].name := log[0].file];
  }

  /** The only foreign entry a finished run leaves behind is the displaced one, and the result says so. */
  lemma LeftoversAreReported(request: Request, created: set<(nat, nat)>, log: seq<Event>, result: Result<Written>,
                             name: string)
    requires Outcome(request, created, log, result) && name in Held(log) && !Own(created, Held(log)[name])
    ensures result == Err(Displaced(name)) ||
            (result == Err(WrittenUnconfirmed) && Authorized(request, Held(log)[name]))
  {
    if OnlyOwnFiles(created, log) {
      OwnLogHoldsOwnFiles(created, log, name);
    } else if ReplacedOne(request, log) || Restored(created, log) {
      NothingHeld(request, created, log);
    } else {
      HeldWhileExchanging(log);
      assert log[..|log|] == log;
      if |log| == 3 {
        assert Held(log) == Apply(Held(log[..2]), log[2]);
      }
    }
  }

  lemma NothingHeld(request: Request, created: set<(nat, nat)>, log: seq<Event>)
    requires ReplacedOne(request, log) || Restored(created, log)
    ensures Held(log) == map[]
  {
    HeldWhileExchanging(log);
    if |log| == 3 {
      assert Held(log) == Apply(Held(log[..2]), log[2]);
    } else {
      assert log[..3][..2] == log[..2];
      assert Held(log[..3]) == Apply(Held(log[..2]), log[2]);
    }
  }

  /**
   An entry the request does not allow to replace survives every run: as often as it was taken out
   of the destination it was put back, or it waits under the temporary path that the result names.
   */
  lemma UnauthorizedEntriesSurvive(request: Request, inspected: Option<Entry>, created: set<(nat, nat)>,
                                   log: seq<Event>, result: Result<Written>, entry: Entry)
    requires Consistent(log) && LawfulLog(request, inspected, created, log) && Outcome(request, created, log, result)
    requires !Own(created, entry) && !Authorized(request, entry)
    ensures Destroyed(entry, log) == 0
    ensures TakenOut(entry, log) == GivenBack(entry, log) ||
            (result.Err? && result.error.Displaced? &&
             result.error.path in Held(log) && Held(log)[result.error.path] == entry)
  {
    if Destroyed(entry, log) > 0 {
      UnlinkedEntriesWereAuthorized(request, inspected, created, log, entry);
    }
    ForeignEntriesAreConserved(entry, log);
    if TakenOut(entry, log) != GivenBack(entry, log) {
      assert NamesOf(entry, Held(log)) != {};
      var name :| name in NamesOf(entry, Held(log));
      LeftoversAreReported(request, created, log, result, name);
    }
  }

  // ---------------------------------------------------------------------------------------------
  // The destination, changed by everyone

  /** One change of what the destination names. */
  datatype Change = ByOther(entry: Option<Entry>) | ByExport(event: Event)

  /** What an event leaves under the destination name. */
  function Leaves(destination: Option<Entry>, event: Event): Option<Entry> {
    match event
    case Exchanged(_, placed, _) => Some(placed)
    case Returned(_, placed, _) => Some(placed)
    case Installed(_, file, _) => Some(file)
    case _ => destination
  }

  /** An event found at the destination what it says it found there. */
  predicate Meets(destination: Option<Entry>, event: Event) {
    match event
    case Exchanged(_, _, displaced) => destination == Some(displaced)
    case Returned(_, _, displaced) => destination == Some(displaced)
    case Installed(_, _, over) => destination == over
    case _ => true
  }

  /** The destination after a history of changes. */
  function Replay(start: Option<Entry>, history: seq<Change>): Option<Entry> {
    if history == [] then start
    else
      match history[|history| - 1]
      case ByOther(entry) => entry
      case ByExport(event) => Leaves(Replay(start, history[..|history| - 1]), event)
  }

  /** Every event of the export met the destination as it was. */
  predicate Truthful(start: Option<Entry>, history: seq<Change>) {
    history == [] ||
    (var before, last := history[..|history| - 1], history[|history| - 1];
     Truthful(start, before) && (last.ByExport? ==> Meets(Replay(start, before), last.event)))
  }

  function EventsIn(history: seq<Change>): seq<Event> {
    if history == [] then []
    else
      var before, last := EventsIn(history[..|history| - 1]), history[|history| - 1];
      if last.ByExport? then before + [last.event] else before
  }

  /** The log is the export's part of the history, and the history leads to the destination. */
  predicate Linked(start: Option<Entry>, history: seq<Change>, log: seq<Event>, destination: Option<Entry>) {
    Truthful(start, history) && EventsIn(history) == log && Replay(start, history) == destination
  }

  lemma LinkedToOther(start: Option<Entry>, history: seq<Change>, log: seq<Event>, destination: Option<Entry>,
                      entry: Option<Entry>)
    requires Linked(start, history, log, destination)
    ensures Linked(start, history + [ByOther(entry)], log, entry)
  {
    assert (history + [ByOther(entry)])[..|history|] == history;
  }

  lemma LinkedToEvent(start: Option<Entry>, history: seq<Change>, log: seq<Event>, destination: Option<Entry>,
                      event: Event)
    requires Linked(start, history, log, destination) && Meets(destination, event)
    ensures Linked(start, history + [ByExport(event)], log + [event], Leaves(destination, event))
  {
    assert (history + [ByExport(event)])[..|history|] == history;
  }

  /** At every moment of the history, the export's change found and left what its event says. */
  lemma {:induction false} EventsAreTrue(start: Option<Entry>, history: seq<Change>, i: nat)
    requires Truthful(start, history) && i < |history| && history[i].ByExport?
    ensures Meets(Replay(start, history[..i]), history[i].event)
    ensures Replay(start, history[..i + 1]) == Leaves(Replay(start, history[..i]), history[i].event)
  {
    if i < |history| - 1 {
      var before := history[..|history| - 1];
      EventsAreTrue(start, before, i);
      assert before[..i] == history[..i] && before[..i + 1] == history[..i + 1];
    } else {
      assert history[..i + 1] == history && history[..i + 1][..i] == history[..i];
    }
  }

  /** The place of an event in the history. */
  function PlaceOf(history: seq<Change>, k: nat): (i: nat)
    requires k < |EventsIn(history)|
    ensures i < |history| && history[i] == ByExport(EventsIn(history)[k])
    ensures EventsIn(history[..i]) == EventsIn(history)[..k]
  {
    var last := |history| - 1;
    if history[last].ByExport? && k == |EventsIn(history)| - 1 then last
    else
      var i := PlaceOf(history[..last], k);
      assert history[..last][..i] == history[..i];
      i
  }

  /** An export that installs a file never overwrites one: nothing was there. */
  lemma InstallsNeverOverwrite(request: Request, inspected: Option<Entry>, created: set<(nat, nat)>,
                               start: Option<Entry>, history: seq<Change>, destination: Option<Entry>, i: nat)
    requires LawfulLog(request, inspected, created, EventsIn(history))
    requires Linked(start, history, EventsIn(history), destination)
    requires i < |history| && history[i].ByExport? && history[i].event.Installed?
    ensures Replay(start, history[..i]) == None && Replay(start, history[..i + 1]) == Some(history[i].event.file)
  {
    EventsAreTrue(start, history, i);
    EventIsInLog(history, i);
  }

  lemma {:induction false} EventIsInLog(history: seq<Change>, i: nat)
    requires i < |history| && history[i].ByExport?
    ensures exists k :: 0 <= k < |EventsIn(history)| && EventsIn(history)[k] == history[i].event
  {
    var log, before := EventsIn(history), history[..|history| - 1];
    if i == |history| - 1 {
      assert log[|log| - 1] == history[i].event;
    } else {
      EventIsInLog(before, i);
      var k :| 0 <= k < |EventsIn(before)| && EventsIn(before)[k] == before[i].event;
      assert log[k] == history[i].event;
    }
  }

  /** Put back: the export gave the entry to the destination, and there it was. */
  ghost predicate GivenTo(start: Option<Entry>, history: seq<Change>, entry: Entry, after: nat) {
    exists j :: && after < j < |history| && history[j].ByExport? && history[j].event.Returned?
                && history[j].event.placed == entry && Replay(start, history[..j + 1]) == Some(entry)
  }

  /**
   * An entry that the request does not allow to replace and that an exchange took from the destination was there;
   * and either a later exchange put it back there, or it is under the temporary name that the result reports.
   */
  lemma DisplacedComesBack(request: Request, inspected: Option<Entry>, created: set<(nat, nat)>, start: Option<Entry>,
                           history: seq<Change>, destination: Option<Entry>, result: Result<Written>, i: nat,
                           entry: Entry)
    requires var log := EventsIn(history);
             && Linked(start, history, log, destination) && Consistent(log)
             && LawfulLog(request, inspected, created, log) && Outcome(request, created, log, result)
    requires i < |history| && history[i].ByExport? && Takes(entry, history[i].event) == 1
    requires !Own(created, entry) && !Authorized(request, entry)
    ensures Replay(start, history[..i]) == Some(entry)
    ensures GivenTo(start, history, entry, i) ||
            (result.Err? && result.error.Displaced? && result.error.path in Held(EventsIn(history)) &&
             Held(EventsIn(history))[result.error.path] == entry)
  {
    var log := EventsIn(history);
    EventsAreTrue(start, history, i);
    var k := IndexOf(history, i);
    if log[k].Exchanged? && |log| > 2 && log[2].Returned? && k == 1 {
      TakenIsPlaced(log);
      PlacedIsGiven(start, history, i);
    } else {
      TakenIsHeld(request, inspected, created, log, result, k, entry);
    }
  }

  /** An exchange back gives its entry to the destination. */
  lemma PlacedIsGiven(start: Option<Entry>, history: seq<Change>, i: nat)
    requires Truthful(start, history) && i < |history| && |EventsIn(history[..i])| == 1
    requires |EventsIn(history)| > 2 && EventsIn(history)[2].Returned?
    ensures GivenTo(start, history, EventsIn(history)[2].placed, i)
  {
    var j := PlaceOf(history, 2);
    EventsAreTrue(start, history, j);
    PlaceAfter(history, i, 1, j);
  }

  /** Where in the log an event of the history stands. */
  lemma {:induction false} IndexOf(history: seq<Change>, i: nat) returns (k: nat)
    requires i < |history| && history[i].ByExport?
    ensures k < |EventsIn(history)| && EventsIn(history)[k] == history[i].event && k == |EventsIn(history[..i])|
  {
    var before := history[..|history| - 1];
    if i == |history| - 1 {
      k := |EventsIn(before)|;
    } else {
      k := IndexOf(before, i);
      assert before[..i] == history[..i];
    }
  }

  /** A later event of the log stands later in the history. */
  lemma PlaceAfter(history: seq<Change>, i: nat, k: nat, j: nat)
    requires i < |history| && j < |history| && k == |EventsIn(history[..i])| && |EventsIn(history[..j])| > k
    ensures i < j
  {
    if j <= i { EventsGrow(history, j, i); }
  }

  lemma {:induction false} EventsGrow(history: seq<Change>, j: nat, i: nat)
    requires j <= i <= |history|
    ensures |EventsIn(history[..j])| <= |EventsIn(history[..i])|
  {
    if j < i {
      EventsGrow(history, j, i - 1);
      assert history[..i][..i - 1] == history[..i - 1];
    }
  }

  lemma TakenIsPlaced(log: seq<Event>)
    requires Consistent(log) && |log| > 2 && log[1].Exchanged? && log[2].Returned?
    ensures log[2].placed == log[1].displaced
  {
    ConsistentPrefix(log, 3);
    var three := log[..3];
    assert three[..2] == log[..2] && Fits(log[..2], log[2]);
    assert log[..2][..1] == log[..1];
    assert Held(log[..2]) == Apply(Held(log[..1]), log[1]);
  }

  lemma {:induction false} ConsistentPrefix(log: seq<Event>, n: nat)
    requires Consistent(log) && n <= |log|
    ensures Consistent(log[..n])
  {
    if n < |log| {
      ConsistentPrefix(log[..|log| - 1], n);
      assert log[..|log| - 1][..n] == log[..n];
    } else {
      assert log[..n] == log;
    }
  }

  /** Taken and not given back: then it is held where the result says. */
  lemma TakenIsHeld(request: Request, inspected: Option<Entry>, created: set<(nat, nat)>, log: seq<Event>,
                    result: Result<Written>, k: nat, entry: Entry)
    requires Consistent(log) && LawfulLog(request, inspected, created, log) && Outcome(request, created, log, result)
    requires k < |log| && Takes(entry, log[k]) == 1 && !Own(created, entry) && !Authorized(request, entry)
    requires !(log[k].Exchanged? && |log| > 2 && log[2].Returned? && k == 1)
    ensures result.Err? && result.error.Displaced? && result.error.path in Held(log)
    ensures Held(log)[result.error.path] == entry
  {
    NotReplaced(request, created, log, k, entry);
    var name := result.error.path;
    HeldWhileExchanging(log);
    assert log[..|log|] == log;
    if |log| == 3 { assert Held(log) == Apply(Held(log[..2]), log[2]); }
  }

  /** Only a displaced result goes with an unauthorized entry that was taken and not returned. */
  lemma NotReplaced(request: Request, created: set<(nat, nat)>, log: seq<Event>, k: nat, entry: Entry)
    requires k < |log| && Takes(entry, log[k]) == 1 && !Own(created, entry) && !Authorized(request, entry)
    ensures !ReplacedOne(request, log) && !OnlyOwnFiles(created, log)
    ensures Exchanging(log) ==> !Authorized(request, log[1].displaced)
    ensures Restored(created, log) ==> log[k].Exchanged? && k == 1
  {
  }

  // ---------------------------------------------------------------------------------------------
  // What the logs of an exchange mean

  /** A temporary file was exchanged with the target. */
  function Taken(name: string, file: Entry, displaced: Entry): seq<Event> {
    [Created(name, file), Exchanged(name, file, displaced)]
  }

  lemma TakenHolds(name: string, file: Entry, displaced: Entry)
    ensures Held(Taken(name, file, displaced)) == map[name := displaced]
    ensures JustExchanged(Taken(name, file, displaced), name) && Exchanging(Taken(name, file, displaced))
  {
    HeldWhileExchanging(Taken(name, file, displaced));
    assert Taken(name, file, displaced)[..2] == Taken(name, file, displaced);
  }

  lemma DisplacedOutcome(request: Request, created: set<(nat, nat)>, log: seq<Event>, name: string, file: Entry,
                         displaced: Entry)
    requires log == Taken(name, file, displaced)
    ensures Outcome(request, created, log, Err(Displaced(name)))
  {
    TakenHolds(name, file, displaced);
    assert log[..2] == log;
  }

  lemma TakenOutcome(request: Request, created: set<(nat, nat)>, log: seq<Event>, name: string, file: Entry,
                     displaced: Entry)
    requires log == Taken(name, file, displaced) && Authorized(request, displaced)
    ensures Outcome(request, created, log, Err(WrittenUnconfirmed))
  {
  }

  lemma GivenOutcome(request: Request, created: set<(nat, nat)>, log: seq<Event>, name: string, file: Entry,
                     displaced: Entry, back: Entry)
    requires log == Taken(name, file, displaced) + [Returned(name, displaced, back)]
    ensures Outcome(request, created, log, Err(Displaced(name))) && Held(log) == map[name := back]
  {
    TakenHolds(name, file, displaced);
    Appended(Taken(name, file, displaced), Returned(name, displaced, back));
    assert log[..2] == Taken(name, file, displaced);
  }

  lemma RestoredOutcome(request: Request, created: set<(nat, nat)>, log: seq<Event>, name: string, file: Entry,
                        displaced: Entry, back: Entry, error: Error)
    requires log == Taken(name, file, displaced) + [Returned(name, displaced, back)] + [Unlinked(name, back)]
    requires Own(created, back) && !error.Displaced? && error != WrittenUnconfirmed
    ensures Outcome(request, created, log, Err(error))
  {
    TakenHolds(name, file, displaced);
    assert log[..2] == Taken(name, file, displaced);
  }

  /** The log before the displaced file is removed. */
  predicate Removable(log: seq<Event>, name: string, file: Entry, displaced: Entry) {
    || (log == Taken(name, file, displaced) && file.mode == CopiedBits(displaced.mode))
    || log == Taken(name, file, displaced) + [ModeCopied(name, CopiedBits(displaced.mode))]
  }

  lemma RemovableOutcome(request: Request, created: set<(nat, nat)>, log: seq<Event>, name: string, file: Entry,
                         displaced: Entry)
    requires Removable(log, name, file, displaced)
    ensures Outcome(request, created, log, Err(Displaced(name))) && name in Held(log) && Held(log)[name] == displaced
  {
    TakenHolds(name, file, displaced);
    assert log[..2] == Taken(name, file, displaced);
    if |log| == 3 { Appended(Taken(name, file, displaced), log[2]); }
  }

  lemma ReplacedOutcome(request: Request, before: seq<Event>, log: seq<Event>, name: string, file: Entry,
                        displaced: Entry)
    requires Removable(before, name, file, displaced) && log == before + [Unlinked(name, displaced)]
    requires Authorized(request, displaced)
    ensures ReplacedOne(request, log)
  {
  }

  // ---------------------------------------------------------------------------------------------
  // The export itself

  /** The folder is what it was, except for the temporary names the log accounts for. */
  ghost predicate SoundFolder(request: Request, inspected: Option<Entry>, created: set<(nat, nat)>, log: seq<Event>,
                              initial: map<string, Entry>, others: map<string, Entry>)
  {
    && Consistent(log)
    && LawfulLog(request, inspected, created, log)
    && initial.Keys !! Held(log).Keys
    && others == initial + Held(log)
  }

  lemma StaysSound(request: Request, inspected: Option<Entry>, created: set<(nat, nat)>, log: seq<Event>,
                   event: Event, initial: map<string, Entry>, others: map<string, Entry>)
    requires SoundFolder(request, inspected, created, log, initial, others)
    requires Fits(log, event) && Lawful(request, inspected, created, event)
    requires event.Created? ==> event.name !in initial
    ensures SoundFolder(request, inspected, created, log + [event], initial, Apply(others, event))
    ensures Held(log + [event]) == Apply(Held(log), event)
  {
    Appended(log, event);
    AppliesToTemporaries(initial, Held(log), event);
  }

  lemma AppliesToTemporaries(initial: map<string, Entry>, held: map<string, Entry>, event: Event)
    requires initial.Keys !! held.Keys && event.name !in initial
    ensures initial.Keys !! Apply(held, event).Keys
    ensures Apply(initial + held, event) == initial + Apply(held, event)
  {
  }

  lemma MoreCreated(request: Request, inspected: Option<Entry>, created: set<(nat, nat)>, more: set<(nat, nat)>,
                    log: seq<Event>)
    requires LawfulLog(request, inspected, created, log) && created <= more
    ensures LawfulLog(request, inspected, more, log)
    ensures OnlyOwnFiles(created, log) ==> OnlyOwnFiles(more, log)
  {
    forall i | 0 <= i < |log|
      ensures Lawful(request, inspected, more, log[i])
    {
      assert Lawful(request, inspected, created, log[i]);
    }
  }

  /** At some moment of the history the destination held this. */
  ghost predicate Was(start: Option<Entry>, history: seq<Change>, entry: Option<Entry>) {
    exists i :: 0 <= i <= |history| && Replay(start, history[..i]) == entry
  }

  lemma WasNow(start: Option<Entry>, history: seq<Change>)
    ensures Was(start, history, Replay(start, history))
  {
    assert history[..|history|] == history;
  }

  lemma StillWas(start: Option<Entry>, history: seq<Change>, longer: seq<Change>, entry: Option<Entry>)
    requires Was(start, history, entry) && history <= longer
    ensures Was(start, longer, entry)
  {
    var i :| 0 <= i <= |history| && Replay(start, history[..i]) == entry;
    assert longer[..i] == history[..i];
  }

  // ---------------------------------------------------------------------------------------------
  // What an export comes to when no call fails and nobody interferes

  /** The verdict on the target, before any byte is written: go on, nothing to do, or refused. */
  function Ruling(request: Request, target: Option<Entry>): Result<Option<Written>> {
    if target == None then (if request.overwrite.Confirmed? then Err(Changed) else Ok(None))
    else if request.overwrite == Always || request.overwrite == Confirmed(target.value.identity) then Ok(None)
    else if request.overwrite.Confirmed? then Err(Changed)
    else if request.overwrite == RefuseUnlessIdentical && target.value.content == request.content
    then Ok(Some(Written(|request.content|, false, true)))
    else Err(Exists(target.value.identity))
  }

  function Answer(request: Request, target: Option<Entry>): Result<Written> {
    if !request.absoluteFile then Err(InvalidPath)
    else if target.Some? && target.value.kind == Symlink then Err(TargetIsSymlink)
    else if target.Some? && target.value.kind == Directory then Err(TargetIsDirectory)
    else if target.Some? && target.value.kind != Regular then Err(TargetNotRegular)
    else Verdict(request, target)
  }

  function Verdict(request: Request, target: Option<Entry>): Result<Written> {
    match Ruling(request, target)
    case Err(error) => Err(error)
    case Ok(Some(written)) => Ok(written)
    case Ok(None) => Ok(Written(|request.content|, target.Some?, false))
  }

  /** The destination has the requested content, with the nine permission bits of the file it replaces, if any. */
  predicate Holds(destination: Option<Entry>, request: Request, target: Option<Entry>) {
    destination.Some? && destination.value.kind == Regular && destination.value.content == request.content &&
    destination.value.mode == (if target.Some? then target.value.mode % 0x200 else 0x1B6)
  }

  /** The inspected file, with this content. */
  predicate Identical(destination: Option<Entry>, inspected: Entry, content: string) {
    destination.Some? && destination.value.kind == Regular && destination.value.Node() == inspected.Node() &&
    destination.value.content == content
  }

  class Export {
    var destination: Option<Entry>      // shared: other actors change it at will
    var others: map<string, Entry>      // every other name of the folder, the temporary ones included
    ghost var created: set<(nat, nat)>  // device and inode of each file this export made
    ghost var log: seq<Event>
    ghost var history: seq<Change>
    ghost var calm: bool                // no call has failed and nobody has interfered so far
    ghost const initial: map<string, Entry>
    ghost const start: Option<Entry>

    constructor (destination: Option<Entry>, others: map<string, Entry>)
      ensures this.destination == destination == start && this.others == others == initial
      ensures created == {} && log == [] && history == [] && calm
    {
      this.destination, this.others, created, log, history, calm := destination, others, {}, [], [], true;
      initial, start := others, destination;
    }

    ghost predicate Sound(request: Request, inspected: Option<Entry>)
      reads this
    {
      && SoundFolder(request, inspected, created, log, initial, others)
      && Linked(start, history, log, destination)
    }

    predicate NodeInUse(node: (nat, nat))
      reads this
    {
      (destination.Some? && destination.value.Node() == node) ||
      exists name :: name in others && others[name].Node() == node
    }

    /** The destination was empty once, and now something with this identity is there. */
    ghost predicate Reappeared(request: Request, identity: Identity)
      reads this
    {
      !request.overwrite.Confirmed? && Was(start, history, None) &&
      destination.Some? && destination.value.identity == identity
    }

    /** `Exists` has one of two reasons: the target may not be replaced, or it came back. */
    ghost predicate Refusal(request: Request, inspected: Option<Entry>, identity: Identity)
      reads this
    {
      || (inspected.Some? && request.overwrite in {Refuse, RefuseUnlessIdentical} &&
          identity == inspected.value.identity)
      || Reappeared(request, identity)
    }

    // -------------------------------------------------------------------------------------------
    // The world

    /** Any other actor: replaces, removes or creates whatever the destination names. */
    method Interfere()
      requires Linked(start, history, log, destination)
      modifies this`destination, this`history, this`calm
      ensures history == old(history) + [ByOther(destination)] && Linked(start, history, log, destination)
      ensures calm == (old(calm) && destination == old(destination))
    {
      var entry: Option<Entry> := *;
      calm := calm && entry == destination;
      LinkedToOther(start, history, log, destination, entry);
      destination := entry;
      history := history + [ByOther(entry)];
    }

    /** A change by this export, on record in the log and in the history. */
    method Perform(event: Event, request: Request, ghost inspected: Option<Entry>)
      requires Sound(request, inspected)
      requires Fits(log, event) && Lawful(request, inspected, created, event) && Meets(destination, event)
      requires event.Created? ==> event.name !in initial
      modifies this`destination, this`others, this`log, this`history
      ensures Sound(request, inspected) && log == old(log) + [event] && history == old(history) + [ByExport(event)]
      ensures destination == Leaves(old(destination), event) && others == Apply(old(others), event)
      ensures Held(log) == Apply(Held(old(log)), event)
    {
      StaysSound(request, inspected, created, log, event, initial, others);
      LinkedToEvent(start, history, log, destination, event);
      destination, others := Leaves(destination, event), Apply(others, event);
      log, history := log + [event], history + [ByExport(event)];
    }

    /** The outcome of a call that may fail. */
    method Fails() returns (failed: bool)
      modifies this`calm
      ensures calm == (old(calm) && !failed)
    {
      failed := *;
      calm := calm && !failed;
    }

    method AnyIoError() returns (error: Error)
      ensures IoError(error)
    {
      error := *;
      if !IoError(error) { error := Io; }
    }

    // -------------------------------------------------------------------------------------------
    // Looking at the destination

    /** symlink_metadata of the destination. */
    method InspectTarget() returns (r: Result<Option<Entry>>)
      requires Linked(start, history, log, destination)
      modifies this`destination, this`history, this`calm
      ensures Linked(start, history, log, destination)
      ensures r.Ok? ==> r.value == destination && (destination.Some? ==> destination.value.kind == Regular)
      ensures r.Err? ==> IoError(r.error) ||
                         (destination.Some? && destination.value.kind != Regular &&
                          r.error == Misplaced(destination.value.kind))
      ensures old(history) <= history && (calm ==> old(calm) && destination == old(destination))
      ensures calm ==> (r.Ok? <==> destination == None || destination.value.kind == Regular)
      ensures calm && r.Err? ==> r.error == Misplaced(destination.value.kind)
    {
      Interfere();
      var failed := Fails();
      if failed {
        var error := AnyIoError();
        return Err(error);
      }
      if destination == None { return Ok(None); }
      if destination.value.kind != Regular { return Err(Misplaced(destination.value.kind)); }
      return Ok(destination);
    }

    /** The destination, opened without following a link, when it is the inspected file with this content. */
    method IdenticalFile(content: string, inspected: Entry) returns (r: Result<Option<Entry>>)
      requires Linked(start, history, log, destination)
      modifies this`destination, this`history, this`calm
      ensures Linked(start, history, log, destination)
      ensures r.Err? ==> IoError(r.error) ||
                         (r.error == TargetIsSymlink && destination.Some? && destination.value.kind == Symlink)
      ensures r.Ok? ==> (r.value.Some? <==> Identical(destination, inspected, content))
      ensures r.Ok? && r.value.Some? ==> r.value == destination
      ensures old(history) <= history && (calm ==> old(calm) && destination == old(destination))
      ensures calm && destination.Some? && destination.value.kind != Symlink ==> r.Ok?
    {
      Interfere();
      var failed := Fails();
      if failed || destination == None {
        var error := AnyIoError();
        return Err(error);
      }
      var file := destination.value;
      if file.kind == Symlink { return Err(TargetIsSymlink); }
      if file.kind != Regular || file.Node() != inspected.Node() || file.content != content {
        return Ok(None);
      }
      return Ok(Some(file));
    }

    /** Whether the inspected target may be replaced, before any byte is written. */
    method Authorize(request: Request, existing: Option<Entry>) returns (r: Result<Option<Written>>)
      requires Linked(start, history, log, destination)
      requires existing.Some? ==> existing.value.kind == Regular
      modifies this`destination, this`history, this`calm
      ensures Linked(start, history, log, destination)
      ensures existing == None ==> r == Ruling(request, existing)
      ensures existing.Some? && request.overwrite != RefuseUnlessIdentical ==> r == Ruling(request, existing)
      ensures existing.Some? && request.overwrite in {Always, Confirmed(existing.value.identity)} ==> r == Ok(None)
      ensures r == Ok(None) && existing.Some? ==> Authorized(request, existing.value)
      ensures existing.Some? && request.overwrite == RefuseUnlessIdentical ==>
                if Identical(destination, existing.value, request.content)
                then r == Ok(Some(Written(|request.content|, false, true))) || r == Err(WrittenUnconfirmed) ||
                     (r.Err? && IoError(r.error))
                else r == Err(Exists(existing.value.identity)) || r == Err(TargetIsSymlink) ||
                     (r.Err? && IoError(r.error))
      ensures r == Err(Changed) <==>
                (request.overwrite.Confirmed? &&
                 (existing == None || existing.value.identity != request.overwrite.expected))
      ensures old(history) <= history && (calm ==> old(calm) && destination == old(destination))
      ensures calm && old(destination) == existing ==> r == Ruling(request, existing)
    {
      if existing == None {
        if request.overwrite.Confirmed? { return Err(Changed); }
        return Ok(None);
      }
      if request.overwrite == RefuseUnlessIdentical {
        var identical := IdenticalFile(request.content, existing.value);
        if identical.Err? { return Err(identical.error); }
        if identical.value.Some? {
          var unsynced := Fails();
          if unsynced { return Err(WrittenUnconfirmed); }
          return Ok(Some(Written(|request.content|, false, true)));
        }
      }
      match request.overwrite {
        case Refuse => return Err(Exists(existing.value.identity));
        case RefuseUnlessIdentical => return Err(Exists(existing.value.identity));
        case Confirmed(expected) =>
          if expected != existing.value.identity { return Err(Changed); }
          return Ok(None);
        case Always => return Ok(None);
      }
    }

    // -------------------------------------------------------------------------------------------
    // Changing the folder

    /** Removal of what a temporary name holds: a file of this export, or one it may replace. */
    method Unlink(name: string, request: Request, ghost inspected: Option<Entry>) returns (failed: bool)
      requires Sound(request, inspected) && name in Held(log)
      requires Own(created, Held(log)[name]) || Authorized(request, Held(log)[name])
      modifies this`destination, this`others, this`log, this`history, this`calm
      ensures Sound(request, inspected)
      ensures log == if failed then old(log) else old(log) + [Unlinked(name, Held(old(log))[name])]
      ensures !failed ==> Held(log) == Held(old(log)) - {name}
      ensures old(history) <= history && (calm ==> old(calm) && destination == old(destination))
      ensures calm ==> !failed
    {
      Interfere();
      failed := Fails();
      if !failed { Perform(Unlinked(name, others[name]), request, inspected); }
    }

    /** Removal of a temporary file by its guard, which ignores a failure. */
    method Discard(name: string, request: Request, ghost inspected: Option<Entry>)
      requires Sound(request, inspected) && OnlyOwnFiles(created, log)
      requires name in Held(log) && Own(created, Held(log)[name])
      modifies this`destination, this`others, this`log, this`history, this`calm
      ensures Sound(request, inspected) && OnlyOwnFiles(created, log)
      ensures old(history) <= history && (calm ==> old(calm) && destination == old(destination))
      ensures calm ==> Held(log) == Held(old(log)) - {name}
    {
      var _ := Unlink(name, request, inspected);
    }

    /** A synchronized temporary file with this mode, under a name nothing else uses. */
    method TemporaryFile(request: Request, mode: nat, ghost inspected: Option<Entry>)
      returns (r: Result<string>, file: Entry)
      requires Sound(request, inspected) && OnlyOwnFiles(created, log)
      modifies this
      ensures Sound(request, inspected) && OnlyOwnFiles(created, log) && created >= old(created)
      ensures r.Ok? ==>
                && log == old(log) + [Created(r.value, file)]
                && r.value in Held(log) && Held(log)[r.value] == file
                && Own(created, file) && file.kind == Regular
                && file.content == request.content && file.mode == mode
      ensures r.Ok? ==> Held(log) == Held(old(log))[r.value := file]
      ensures r.Err? ==> IoError(r.error)
      ensures old(history) <= history && (calm ==> old(calm) && destination == old(destination))
      ensures calm ==> r.Ok?
    {
      var failed;
      failed, r, file := CreateFile(request, mode, inspected);
      if failed || r.Err? { return; }
      failed := Fails();
      if failed { // the bytes or their synchronization failed
        Discard(r.value, request, inspected);
        var error := AnyIoError();
        r := Err(error);
      }
    }

    /** A new file takes a free name and a free inode. */
    method CreateFile(request: Request, mode: nat, ghost inspected: Option<Entry>)
      returns (failed: bool, r: Result<string>, file: Entry)
      requires Sound(request, inspected) && OnlyOwnFiles(created, log)
      modifies this
      ensures Sound(request, inspected) && OnlyOwnFiles(created, log) && created >= old(created)
      ensures failed == r.Err? && (r.Err? ==> IoError(r.error) && log == old(log))
      ensures r.Ok? ==>
                && log == old(log) + [Created(r.value, file)]
                && r.value in Held(log) && Held(log)[r.value] == file
                && file == Entry(Regular, file.identity, mode, request.content) && Own(created, file)
                && Held(log) == Held(old(log))[r.value := file]
      ensures old(history) <= history && (calm ==> old(calm) && destination == old(destination))
      ensures calm ==> r.Ok?
    {
      Interfere();
      var name, identity;
      failed, name, identity := FreeName();
      file := Entry(Regular, identity, mode, request.content);
      if failed {
        var error := AnyIoError();
        r := Err(error);
      } else {
        PutFile(name, file, request, inspected);
        r := Ok(name);
      }
    }

    /** A name and an inode that nothing uses; that there is none is a failure. */
    method FreeName() returns (failed: bool, name: string, identity: Identity)
      modifies this`calm
      ensures calm == (old(calm) && !failed)
      ensures !failed ==> name !in others && !NodeInUse((identity.device, identity.inode))
    {
      name, identity := *, *;
      failed := Fails();
      if name in others || NodeInUse((identity.device, identity.inode)) { failed, calm := true, false; }
    }

    method PutFile(name: string, file: Entry, request: Request, ghost inspected: Option<Entry>)
      requires Sound(request, inspected) && OnlyOwnFiles(created, log)
      requires name !in others && file.kind == Regular
      modifies this`destination, this`others, this`log, this`history, this`created
      ensures Sound(request, inspected) && OnlyOwnFiles(created, log) && created >= old(created) && Own(created, file)
      ensures log == old(log) + [Created(name, file)] && Held(log) == Held(old(log))[name := file]
      ensures old(history) <= history && destination == old(destination)
    {
      MoreCreated(request, inspected, created, created + {file.Node()}, log);
      created := created + {file.Node()};
      Perform(Created(name, file), request, inspected);
    }

    /** renameat2 with RENAME_EXCHANGE of a temporary name and the destination; `undo` puts something back. */
    method Exchange(name: string, undo: bool, request: Request, ghost inspected: Option<Entry>)
      returns (failure: Option<Errno>, displaced: Entry)
      requires Sound(request, inspected) && name in Held(log)
      requires if undo then JustExchanged(log, name)
               else Lawful(request, inspected, created, Exchanged(name, Held(log)[name], Held(log)[name]))
      modifies this`destination, this`others, this`log, this`history, this`calm
      ensures Sound(request, inspected)
      ensures failure == None ==>
                var placed := Held(old(log))[name];
                && log == old(log) + [if undo then Returned(name, placed, displaced)
                                      else Exchanged(name, placed, displaced)]
                && destination == Some(placed) && name in Held(log) && Held(log)[name] == displaced
      ensures failure.Some? ==> log == old(log)
      ensures failure == Some(NoEntry) ==> destination == None
      ensures failure.Some? && failure.value.Failed? ==> IoError(failure.value.error)
      ensures failure == None ==> Held(log) == Held(old(log))[name := displaced]
      ensures old(history) <= history && (calm ==> old(calm))
      ensures calm && old(destination).Some? ==> failure == None && displaced == old(destination).value
      ensures calm && old(destination) == None ==> failure == Some(NoEntry)
    {
      Interfere();
      displaced := others[name];
      var failed := Fails();
      if failed {
        var unsupported := Fails();
        if unsupported { return Some(Unsupported), displaced; }
        var error := AnyIoError();
        return Some(Failed(error)), displaced;
      }
      if destination == None { return Some(NoEntry), displaced; }
      displaced := destination.value;
      var placed := others[name];
      Perform(if undo then Returned(name, placed, displaced) else Exchanged(name, placed, displaced),
              request, inspected);
      return None, displaced;
    }

    /** Install a synchronized temporary file only if the target is still absent. */
    method PersistNew(name: string, request: Request, ghost inspected: Option<Entry>) returns (failure: Option<Error>)
      requires Sound(request, inspected) && OnlyOwnFiles(created, log)
      requires name in Held(log) && Own(created, Held(log)[name])
      requires Held(log)[name].content == request.content && Held(log)[name].mode == NEW_FILE_MODE
      modifies this`destination, this`others, this`log, this`history, this`calm
      ensures Sound(request, inspected) && OnlyOwnFiles(created, log)
      ensures failure == None ==>
                && log == old(log) + [Installed(name, Held(old(log))[name], None)]
                && destination == Some(Held(old(log))[name])
      ensures failure == None ==> Held(log) == Held(old(log)) - {name}
      ensures failure.Some? ==> !failure.value.Displaced? && failure.value != WrittenUnconfirmed
      ensures failure.Some? && failure.value.Exists? ==>
                destination.Some? && failure.value.existing == destination.value.identity
      ensures old(history) <= history && (calm ==> old(calm))
      ensures calm && old(destination) == None ==> failure == None
    {
      Interfere();
      var failed := Fails();
      if failed {
        var unsupported := Fails();
        Discard(name, request, inspected);
        if unsupported { return Some(InstallUnsupported); }
        var error := AnyIoError();
        return Some(error);
      }
      if destination != None { // already exists
        failure := AlreadyThere(name, request, inspected);
      } else {
        Perform(Installed(name, others[name], None), request, inspected);
        failure := None;
      }
    }

    method AlreadyThere(name: string, request: Request, ghost inspected: Option<Entry>) returns (failure: Option<Error>)
      requires Sound(request, inspected) && OnlyOwnFiles(created, log)
      requires name in Held(log) && Own(created, Held(log)[name])
      modifies this`destination, this`others, this`log, this`history, this`calm
      ensures Sound(request, inspected) && OnlyOwnFiles(created, log)
      ensures failure.Some? && !failure.value.Displaced? && failure.value != WrittenUnconfirmed
      ensures failure.value.Exists? ==> destination.Some? && failure.value.existing == destination.value.identity
      ensures old(history) <= history && (calm ==> old(calm))
    {
      Discard(name, request, inspected);
      var target := InspectTarget();
      match target {
        case Err(error) => return Some(error);
        case Ok(None) => return Some(Io);
        case Ok(Some(entry)) => return Some(Exists(entry.identity));
      }
    }

    // -------------------------------------------------------------------------------------------
    // After an exchange

    /** Accept only the regular file the request authorized. */
    method VerifyDisplaced(name: string, request: Request) returns (r: Result<nat>)
      requires name in others && (request.overwrite == Always || request.overwrite.Confirmed?)
      requires Linked(start, history, log, destination)
      modifies this`destination, this`history, this`calm
      ensures Linked(start, history, log, destination)
      ensures r.Ok? ==> Authorized(request, others[name]) && r.value == CopiedBits(others[name].mode)
      ensures r.Err? ==> !r.error.Displaced? && r.error != WrittenUnconfirmed &&
                         (Authorized(request, others[name]) ==> IoError(r.error))
      ensures r.Err? && !IoError(r.error) ==>
                r.error == Unexpected(request, others[name])
      ensures calm && r.Err? ==> r.error == Unexpected(request, others[name])
      ensures old(history) <= history && (calm ==> old(calm) && destination == old(destination))
      ensures calm ==> (r.Ok? <==> Authorized(request, others[name]))
    {
      Interfere();
      var failed := Fails();
      if failed {
        var error := AnyIoError();
        return Err(error);
      }
      var displaced := others[name];
      if displaced.kind != Regular
         || (request.overwrite.Confirmed? && request.overwrite.expected != displaced.identity) {
        return Err(if request.overwrite.Confirmed? then Changed else Misplaced(displaced.kind));
      }
      return Ok(CopiedBits(displaced.mode));
    }

    /** Exchange an unexpected entry back and discard only this export's own file. */
    method Restore(name: string, file: Entry, displaced: Entry, error: Error, request: Request,
                   ghost inspected: Option<Entry>)
      returns (reported: Error)
      requires Sound(request, inspected) && log == Taken(name, file, displaced) && Own(created, file)
      requires !error.Displaced? && error != WrittenUnconfirmed
      modifies this`destination, this`others, this`log, this`history, this`calm
      ensures Sound(request, inspected) && Outcome(request, created, log, Err(reported))
      ensures reported == error || reported == Displaced(name)
      ensures log != Taken(name, file, displaced) ==>
                |log| > 2 && log[2].Returned? && log[2].placed == displaced && log[2].name == name
      ensures old(history) <= history && (calm ==> old(calm))
      ensures calm && old(destination) == Some(file) ==>
                reported == error && destination == Some(displaced) && Held(log) == map[]
    {
      TakenHolds(name, file, displaced);
      var failure, back := Exchange(name, true, request, inspected);
      if failure.Some? {
        DisplacedOutcome(request, created, log, name, file, displaced);
        return Displaced(name);
      }
      reported := DiscardReturned(name, file, displaced, back, error, request, inspected);
    }

    /** What came back for the entry goes, if it is this export's own file. */
    method DiscardReturned(name: string, file: Entry, ghost displaced: Entry, ghost back: Entry, error: Error,
                           request: Request, ghost inspected: Option<Entry>)
      returns (reported: Error)
      requires Sound(request, inspected) && Own(created, file)
      requires log == Taken(name, file, displaced) + [Returned(name, displaced, back)]
      requires !error.Displaced? && error != WrittenUnconfirmed
      modifies this`destination, this`others, this`log, this`history, this`calm
      ensures Sound(request, inspected) && Outcome(request, created, log, Err(reported))
      ensures reported == error || reported == Displaced(name)
      ensures old(log) <= log && old(history) <= history && (calm ==> old(calm) && destination == old(destination))
      ensures calm && back == file ==> reported == error && Held(log) == map[]
    {
      GivenOutcome(request, created, log, name, file, displaced, back);
      var unknown := Fails(); // metadata of the own handle or of the temporary name
      if unknown || others[name].Node() != file.Node() { return Displaced(name); }
      var stuck := Unlink(name, request, inspected);
      if stuck { return Displaced(name); }
      RestoredOutcome(request, created, log, name, file, displaced, back, error);
      return error;
    }

    /** Exchange the staged file with the target, verify what came out, and remove it or put it back. */
    method Replace(name: string, file: Entry, request: Request, ghost inspected: Option<Entry>)
      returns (r: Result<bool>)
      requires Sound(request, inspected) && OnlyOwnFiles(created, log) && log == [Created(name, file)]
      requires Own(created, file) && file.content == request.content
      requires inspected.Some? && Authorized(request, inspected.value)
      requires file.mode == CopiedBits(inspected.value.mode)
      modifies this
      ensures Sound(request, inspected) && created >= old(created)
      ensures r.Ok? && r.value ==> ReplacedOne(request, log)
      ensures r.Ok? && !r.value ==> OnlyOwnFiles(created, log) && InstalledLast(log)
      ensures r.Err? ==> Outcome(request, created, log, Err(r.error))
      ensures r.Err? && r.error.Exists? ==> Reappeared(request, r.error.existing)
      ensures old(history) <= history && (calm ==> old(calm))
      ensures calm && old(destination) == inspected ==> r == Ok(true) && destination == Some(file)
      ensures calm && old(destination).Some? && !Authorized(request, old(destination).value) ==>
                r == Err(Unexpected(request, old(destination).value)) && destination == old(destination)
      ensures calm && old(destination) == None ==>
                if request.overwrite.Confirmed? then r == Err(Changed) && destination == None
                else r == Ok(false) && Holds(destination, request, None)
      ensures calm && old(destination) in {None, inspected} ==> Held(log) == map[]
      ensures calm && old(destination).Some? && !Authorized(request, old(destination).value) ==> Held(log) == map[]
    {
      assert Held(log) == map[name := file] by { assert log[..0] == []; }
      var failure, displaced := Exchange(name, false, request, inspected);
      if failure.Some? {
        r := NotExchanged(name, failure.value, request, inspected);
      } else {
        assert log == Taken(name, file, displaced);
        r := FinishExchange(name, file, displaced, request, inspected);
      }
    }

    /** No exchange took place: the staged file goes, and a target that vanished is created anew. */
    method NotExchanged(name: string, failure: Errno, request: Request, ghost inspected: Option<Entry>)
      returns (r: Result<bool>)
      requires Sound(request, inspected) && OnlyOwnFiles(created, log)
      requires name in Held(log) && Own(created, Held(log)[name])
      requires (failure.Failed? ==> IoError(failure.error)) && (failure.NoEntry? ==> destination == None)
      modifies this
      ensures Sound(request, inspected) && created >= old(created) && OnlyOwnFiles(created, log)
      ensures r.Ok? ==> !r.value && InstalledLast(log)
      ensures r.Err? ==> !r.error.Displaced? && r.error != WrittenUnconfirmed
      ensures r.Err? && r.error.Exists? ==> Reappeared(request, r.error.existing)
      ensures old(history) <= history && (calm ==> old(calm))
      ensures calm && failure.NoEntry? ==>
                if request.overwrite.Confirmed? then r == Err(Changed) && destination == None
                else r == Ok(false) && Holds(destination, request, None)
      ensures calm ==> Held(log) == Held(old(log)) - {name}
    {
      ghost var before := history;
      WasNow(start, before);
      Discard(name, request, inspected);
      match failure
      case NoEntry =>
        if request.overwrite.Confirmed? { return Err(Changed); }
        StillWas(start, before, history, None);
        r := CreateNew(request, inspected);
      case Unsupported => r := Err(ReplaceUnsupported);
      case Failed(error) => r := Err(error);
    }

    /** A new file where none is. */
    method CreateNew(request: Request, ghost inspected: Option<Entry>) returns (r: Result<bool>)
      requires Sound(request, inspected) && OnlyOwnFiles(created, log)
      requires Was(start, history, None) && !request.overwrite.Confirmed?
      modifies this
      ensures Sound(request, inspected) && created >= old(created) && OnlyOwnFiles(created, log)
      ensures r.Ok? ==> !r.value && InstalledLast(log) && destination == Some(log[|log| - 1].file)
      ensures r.Ok? ==> Holds(destination, request, None) && Held(log) == Held(old(log))
      ensures r.Err? ==> !r.error.Displaced? && r.error != WrittenUnconfirmed
      ensures r.Err? && r.error.Exists? ==> Reappeared(request, r.error.existing)
      ensures old(history) <= history && (calm ==> old(calm))
      ensures calm && old(destination) == None ==> r == Ok(false)
    {
      ghost var before := history;
      var staged, file := TemporaryFile(request, NEW_FILE_MODE, inspected);
      if staged.Err? { return Err(staged.error); }
      var refused := PersistNew(staged.value, request, inspected);
      StillWas(start, before, history, None);
      if refused.Some? { return Err(refused.value); }
      r := Ok(false);
    }

    /** Everything after the exchange, when the temporary guard no longer removes anything. */
    method FinishExchange(name: string, file: Entry, displaced: Entry, request: Request, ghost inspected: Option<Entry>)
      returns (r: Result<bool>)
      requires Sound(request, inspected) && log == Taken(name, file, displaced) && Own(created, file)
      requires request.overwrite == Always || request.overwrite.Confirmed?
      modifies this`destination, this`others, this`log, this`history, this`calm
      ensures Sound(request, inspected)
      ensures r.Ok? ==> r.value && ReplacedOne(request, log)
      ensures r.Err? ==> Outcome(request, created, log, Err(r.error)) && !r.error.Exists?
      ensures old(history) <= history && (calm ==> old(calm))
      ensures calm && Authorized(request, displaced) && file.mode == CopiedBits(displaced.mode) ==>
                r == Ok(true) && destination == old(destination) && Held(log) == map[]
      ensures calm && !Authorized(request, displaced) && old(destination) == Some(file) ==>
                r == Err(Unexpected(request, displaced)) && destination == Some(displaced) && Held(log) == map[]
    {
      TakenHolds(name, file, displaced);
      var verified := VerifyDisplaced(name, request);
      if verified.Err? {
        var reported := Restore(name, file, displaced, verified.error, request, inspected);
        r := Err(reported);
      } else {
        r := RemoveDisplaced(name, file, displaced, request, inspected);
      }
    }

    /** The displaced file is authorized: its mode is kept, and it goes. */
    method RemoveDisplaced(name: string, file: Entry, displaced: Entry, request: Request,
                           ghost inspected: Option<Entry>)
      returns (r: Result<bool>)
      requires Sound(request, inspected) && log == Taken(name, file, displaced) && Authorized(request, displaced)
      modifies this`destination, this`others, this`log, this`history, this`calm
      ensures Sound(request, inspected)
      ensures r.Ok? ==> r.value && ReplacedOne(request, log)
      ensures r.Err? ==> Outcome(request, created, log, Err(r.error)) && !r.error.Exists?
      ensures old(history) <= history && (calm ==> old(calm) && destination == old(destination))
      ensures calm && file.mode == CopiedBits(displaced.mode) ==> r == Ok(true) && Held(log) == map[]
    {
      TakenHolds(name, file, displaced);
      var unknown := Fails();
      if unknown || file.mode != CopiedBits(displaced.mode) {
        var failed := Fails();
        if failed { // the replaced file stays at the temporary name
          TakenOutcome(request, created, log, name, file, displaced);
          return Err(WrittenUnconfirmed);
        }
        Perform(ModeCopied(name, CopiedBits(displaced.mode)), request, inspected);
      }
      r := UnlinkDisplaced(name, file, displaced, request, inspected);
    }

    method UnlinkDisplaced(name: string, ghost file: Entry, ghost displaced: Entry, request: Request,
                           ghost inspected: Option<Entry>)
      returns (r: Result<bool>)
      requires Sound(request, inspected) && Removable(log, name, file, displaced) && Authorized(request, displaced)
      modifies this`destination, this`others, this`log, this`history, this`calm
      ensures Sound(request, inspected)
      ensures r.Ok? ==> r.value && ReplacedOne(request, log)
      ensures r.Ok? ==> Held(log) == Held(old(log)) - {name}
      ensures r.Err? ==> Outcome(request, created, log, Err(r.error)) && !r.error.Exists?
      ensures old(history) <= history && (calm ==> old(calm) && destination == old(destination))
      ensures calm ==> r.Ok?
    {
      ghost var before := log;
      RemovableOutcome(request, created, log, name, file, displaced);
      var stuck := Unlink(name, request, inspected);
      if stuck { return Err(Displaced(name)); }
      ReplacedOutcome(request, before, log, name, file, displaced);
      r := Ok(true);
    }

    // -------------------------------------------------------------------------------------------
    // The whole export

    /**
     * Whatever others do and whichever calls fail, the folder is what it was but for lawful changes, and the result
     * says what was done. When no call fails and nobody interferes, the answer is the one the request and the target
     * call for; then an answer of success leaves the requested content at the destination, any other answer leaves
     * the destination as it was, and nothing stays at a temporary name.
     */
    method Write(request: Request) returns (r: Result<Written>, ghost inspected: Option<Entry>)
      requires created == {} && log == [] && history == [] && others == initial && destination == start && calm
      modifies this
      ensures Sound(request, inspected)
      ensures Outcome(request, created, log, r)
      ensures r.Ok? && r.value.replaced ==> inspected.Some? && Authorized(request, inspected.value)
      ensures request.overwrite == Refuse || request.overwrite == RefuseUnlessIdentical ==> OnlyOwnFiles(created, log)
      ensures inspected.Some? ==> Was(start, history, inspected)
      ensures r.Err? && r.error.Exists? ==> Refusal(request, inspected, r.error.existing)
      ensures calm ==> r == Answer(request, start) && others == initial
      ensures calm ==> if r.Ok? && !r.value.alreadyThere then Holds(destination, request, start)
                       else destination == start
    {
      inspected := None;
      assert initial + Held(log) == initial;
      if !request.absoluteFile { return Err(InvalidPath), inspected; }
      var unreachable := Fails();
      if unreachable {
        var error := AnyIoError();
        return Err(error), inspected;
      }
      var target := InspectTarget();
      if target.Err? { return Err(target.error), inspected; }
      inspected := target.value;
      WasNow(start, history);
      ghost var before := history;
      r := Proceed(request, target.value);
      StillWas(start, before, history, inspected);
    }

    /** What follows once the target has been looked at. */
    method Proceed(request: Request, inspected: Option<Entry>) returns (r: Result<Written>)
      requires Sound(request, inspected) && log == [] && Was(start, history, inspected)
      requires inspected.Some? ==> inspected.value.kind == Regular
      modifies this
      ensures Sound(request, inspected) && Outcome(request, created, log, r) && old(history) <= history
      ensures r.Ok? && r.value.replaced ==> inspected.Some? && Authorized(request, inspected.value)
      ensures request.overwrite == Refuse || request.overwrite == RefuseUnlessIdentical ==> OnlyOwnFiles(created, log)
      ensures r.Err? && r.error.Exists? ==> Refusal(request, inspected, r.error.existing)
      ensures calm ==> old(calm)
      ensures calm && old(destination) == inspected ==> r == Verdict(request, inspected) && Held(log) == map[]
      ensures calm && old(destination) == inspected ==>
                if r.Ok? && !r.value.alreadyThere then Holds(destination, request, inspected)
                else destination == old(destination)
    {
      ghost var before := history;
      var authorized := Authorize(request, inspected);
      StillWas(start, before, history, inspected);
      if authorized.Err? { return Err(authorized.error); }
      if authorized.value.Some? { return Ok(authorized.value.value); }
      r := Install(request, inspected);
    }

    /** The authorized part: replace the target, or create it, and make the folder durable. */
    method Install(request: Request, inspected: Option<Entry>) returns (r: Result<Written>)
      requires Sound(request, inspected) && log == [] && (inspected.Some? ==> Authorized(request, inspected.value))
      requires inspected == None ==> Was(start, history, None) && !request.overwrite.Confirmed?
      modifies this
      ensures Sound(request, inspected) && Outcome(request, created, log, r)
      ensures r.Err? && r.error.Exists? ==> Reappeared(request, r.error.existing)
      ensures old(history) <= history && (calm ==> old(calm))
      ensures calm && old(destination) == inspected ==>
                r == Ok(Written(|request.content|, inspected.Some?, false)) && Holds(destination, request, inspected) &&
                Held(log) == map[]
      ensures r.Ok? && r.value.replaced ==> inspected.Some?
      ensures inspected.None? ==> OnlyOwnFiles(created, log)
    {
      var written;
      if inspected.Some? {
        written := ReplaceTarget(request, inspected);
      } else {
        written := CreateNew(request, inspected);
      }
      if written.Err? { return Err(written.error); }
      var unsynced := Fails();
      if unsynced { return Err(WrittenUnconfirmed); }
      r := Ok(Written(|request.content|, written.value, false));
    }

    /** Stage a file with the target's mode and replace the target by it. */
    method ReplaceTarget(request: Request, inspected: Option<Entry>) returns (r: Result<bool>)
      requires Sound(request, inspected) && log == []
      requires inspected.Some? && Authorized(request, inspected.value)
      modifies this
      ensures Sound(request, inspected)
      ensures r.Ok? && r.value ==> ReplacedOne(request, log)
      ensures r.Ok? && !r.value ==> OnlyOwnFiles(created, log) && InstalledLast(log)
      ensures r.Err? ==> Outcome(request, created, log, Err(r.error))
      ensures r.Err? && r.error.Exists? ==> Reappeared(request, r.error.existing)
      ensures old(history) <= history && (calm ==> old(calm))
      ensures calm && old(destination) == inspected ==>
                r == Ok(true) && Holds(destination, request, inspected) && Held(log) == map[]
    {
      var staged, file := TemporaryFile(request, CopiedBits(inspected.value.mode), inspected);
      if staged.Err? { return Err(staged.error); }
      r := Replace(staged.value, file, request, inspected);
    }
  }
}
