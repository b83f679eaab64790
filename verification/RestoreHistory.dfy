/** What becomes of the restore journal over any sequence of attempts, polls and restarts, and what its absence
    then says about the controller. */
module RestoreHistory {
  import opened Options
  import opened Snapshots
  import opened Replay
  import opened Restore
  import opened ProgramBackup
  import opened RestoreTransaction

  // ---- the ledger -------------------------------------------------------------------------------

  /** A journal, and whether the controller was undecided when it was written. */
  datatype Entry = Entry(journal: Journal, doubtful: bool)

  /** The journal in memory and on disk. The controller is undecided from the first frame of an attempt until a
      read-back verifies it, or a later read finds the planned state, the state before it, or nothing to restore. */
  datatype Ledger = Ledger(memory: Option<Entry>, disk: Option<Entry>, undecided: bool)

  /** A restart, or an attempt, or a poll (which only reads); `attempt` is what an attempt worked out. */
  datatype Event =
    | Reloaded
    | Tried(facts: Facts, attempt: Option<Attempt>, backup: Backup, seen: Option<Snapshot>, readback: Reading,
            was: Store, now: Store)

  /** Undecided after the read of the attempt. A read that finds the state before a journal decides nothing when
      that state was itself undecided. */
  function StillUndecided(l: Ledger, f: Facts): bool {
    l.undecided && (Settles(l.memory, f) ==> f.verdict.Unchanged? && l.memory.value.doubtful)
  }

  /** The attempt goes on to plan. */
  predicate GoesOn(l: Ledger, f: Facts) {
    f.tried && (Settles(l.memory, f) ==> f.reconciled)
  }

  function UndecidedAfter(l: Ledger, f: Facts): bool {
    if !GoesOn(l, f) || f.planned.Unplannable? || (f.planned.FramesToSend? && !f.begun) then StillUndecided(l, f)
    else if f.planned.NothingToDo? then false
    else
      match f.ending
      case AsPlanned => false
      case BeforeFirst => StillUndecided(l, f)
      case Open => StillUndecided(l, f) || f.sent > 0
  }

  function EntryFor(l: Ledger, e: Event): Option<Entry>
    requires e.Tried? && (e.attempt.Some? ==> Digestible(e.attempt.value.before) && Digestible(e.attempt.value.expected))
  {
    var journal := EntryOf(e.attempt);
    if journal.Some? then Some(Entry(journal.value, StillUndecided(l, e.facts))) else None
  }

  predicate EventOk(e: Event) {
    e.Tried? ==>
      (e.attempt.Some? ==> Digestible(e.attempt.value.before) && Digestible(e.attempt.value.expected))
      && (e.facts.planned.FramesToSend? ==> e.attempt.Some?)
  }

  function Then(l: Ledger, e: Event): Ledger
    requires EventOk(e)
  {
    match e
    case Reloaded => l.(memory := l.disk)
    case Tried(facts, _, _, _, _, _, _) =>
      var journals := Journals(l.memory, l.disk, facts, EntryFor(l, e));
      Ledger(journals.0, journals.1, UndecidedAfter(l, facts))
  }

  function After(l: Ledger, events: seq<Event>): Ledger
    requires EventsOk(events)
  {
    if events == [] then l else Then(After(l, events[..|events| - 1]), events[|events| - 1])
  }

  /** A controller that is undecided has a durable journal. */
  predicate Safe(l: Ledger) {
    l.undecided ==> l.disk.Some?
  }

  /** The event clears the durable journal of an undecided controller: it is refused before its first frame, or
      finds the undecided state that its journal started from, and leaves no journal of its own. */
  predicate Forgets(l: Ledger, e: Event) {
    e.Tried? && StillUndecided(l, e.facts) && GoesOn(l, e.facts)
    && if e.facts.planned.FramesToSend? && e.facts.begun then e.facts.ending.BeforeFirst? && e.facts.aborted
       else !e.facts.planned.NothingToDo? && Settles(l.memory, e.facts)
  }

  lemma StepForgets(l: Ledger, e: Event)
    requires Safe(l) && EventOk(e)
    ensures Safe(Then(l, e)) <==> !Forgets(l, e)
  {
    hide Digestible, Revision;
  }

  predicate EventsOk(events: seq<Event>) {
    forall k :: 0 <= k < |events| ==> EventOk(events[k])
  }

  ghost predicate SafeThroughout(l: Ledger, events: seq<Event>)
    requires EventsOk(events)
  {
    forall k :: 0 <= k <= |events| ==> Safe(After(l, events[..k]))
  }

  ghost predicate NeverForgets(l: Ledger, events: seq<Event>)
    requires EventsOk(events)
  {
    forall k :: 0 <= k < |events| ==> !Forgets(After(l, events[..k]), events[k])
  }

  lemma OneMore(l: Ledger, events: seq<Event>, n: nat)
    requires EventsOk(events) && |events| == n + 1
    ensures EventsOk(events[..n]) && EventOk(events[n]) && After(l, events) == Then(After(l, events[..n]), events[n])
    ensures SafeThroughout(l, events) <==> SafeThroughout(l, events[..n]) && Safe(After(l, events))
    ensures NeverForgets(l, events) <==> NeverForgets(l, events[..n]) && !Forgets(After(l, events[..n]), events[n])
  {
    hide Safe, Forgets, EventOk, Then;
    var init := events[..n];
    assert forall k :: 0 <= k < n ==> init[k] == events[k];
    assert forall k :: 0 <= k <= n ==> init[..k] == events[..k];
    assert events[..n + 1] == events;
    assert init[..n] == init;
  }

  /** Over any sequence of events, an undecided controller has a durable journal throughout if and only if no event
      forgets it. */
  lemma {:induction false} JournalKept(l: Ledger, events: seq<Event>)
    requires Safe(l) && EventsOk(events)
    ensures SafeThroughout(l, events) <==> NeverForgets(l, events)
    ensures SafeThroughout(l, events) ==> Safe(After(l, events))
  {
    hide Safe, Forgets, EventOk, Then;
    if events == [] {
      assert events[..0] == events;
    } else {
      hide SafeThroughout, NeverForgets, After, EventsOk;
      var n := |events| - 1;
      OneMore(l, events, n);
      JournalKept(l, events[..n]);
      if Safe(After(l, events[..n])) { StepForgets(After(l, events[..n]), events[n]); }
    }
  }

  /** After an attempt that left the controller undecided, with its own journal in memory and on disk, the next one
      loses the journal if and only if its read diverges from that journal and it is refused before its first frame,
      both its own journal and the clearing of it having been saved. */
  lemma LostAfterOpenAttempt(l: Ledger, e: Event)
    requires EventOk(e) && e.Tried? && l.undecided && l.memory == l.disk && l.disk.Some? && !l.disk.value.doubtful
    ensures !Safe(Then(l, e)) <==>
              (var f := e.facts;
               f.tried && f.verdict.Diverged? && f.planned.FramesToSend? && f.begun && f.ending.BeforeFirst? && f.aborted)
  {
    hide Digestible, Revision;
    StepForgets(l, e);
  }

  // ---- the ledger of the real objects ----------------------------------------------------------

  function JournalIn(entry: Option<Entry>): Option<Journal> {
    if entry.Some? then Some(entry.value.journal) else None
  }

  /** The ledger holds what the store holds. */
  ghost predicate Holds(l: Ledger, b: ProgramBackupStore)
    reads b
  {
    JournalIn(l.memory) == b.pending && JournalIn(l.disk) == DurableJournal(b.disk)
  }

  lemma JournalsIn(memory: Option<Entry>, disk: Option<Entry>, f: Facts, entry: Option<Entry>)
    ensures Settles(JournalIn(memory), f) == Settles(memory, f)
    ensures var journals := Journals(memory, disk, f, entry);
            Journals(JournalIn(memory), JournalIn(disk), f, JournalIn(entry)) == (JournalIn(journals.0), JournalIn(journals.1))
  {
  }

  datatype Step =
    | TryRestore(env: RestoreEnv)
    | PollRead(observed: Option<Snapshot>, saved: bool)
    | Reload(saved: bool)

  ghost predicate StepOk(step: Step) {
    match step
    case TryRestore(env) => RestoreEnvOk(env)
    case PollRead(observed, _) =>
      observed.Some? ==> IsSnapshot(observed.value, observed.value.frames) && Digestible(observed.value)
    case Reload(_) => true
  }

  /** The event is what the step came to. */
  ghost predicate Tells(e: Event, step: Step, stations: int) {
    match step
    case Reload(_) => e.Reloaded?
    case PollRead(observed, saved) =>
      && e.Tried? && e.attempt.None? && e.seen == observed && e.readback.Broken? && e.now == e.was && e.facts.planned.Unplannable?
      && e.facts.tried == observed.Some? && e.facts.reconciled == saved && e.facts.sent == 0
    case TryRestore(env) =>
      && e.Tried? && Reports(e.facts, env, e.backup) && e.readback == env.write.readback
      && e.seen == (if e.facts.tried then Some(env.first.snapshot) else None)
      && (e.attempt.Some? ==> e.facts.tried && AttemptOk(e.attempt.value, env, e.backup, stations)
                              && Recorded(e.facts, e.attempt.value, env))
      && (e.attempt.None? ==> e.facts.planned.Unplannable? && e.facts.sent == 0)
      && (e.facts.sent > 0 ==> e.now == Delivered(e.was, e.attempt.value.frames[..e.facts.sent], env.write.deliveries))
      && (e.facts.sent == 0 ==> e.now == e.was)
  }

  /** The verdict is the one the read gives on the journal in memory, and only an attempt that goes on plans. */
  ghost predicate Judged(l: Ledger, e: Event) {
    e.Tried? ==>
      && (e.facts.tried && l.memory.Some? ==>
            e.seen.Some? && Digestible(e.seen.value) && e.facts.verdict == VerdictOf(e.seen.value, l.memory.value.journal))
      && (e.attempt.Some? ==> GoesOn(l, e.facts))
  }

  lemma ThenHolds(l: Ledger, e: Event, pending: Option<Journal>, disk: Option<Journal>)
    requires EventOk(e) && e.Tried?
    requires (pending, disk) == Journals(JournalIn(l.memory), JournalIn(l.disk), e.facts, EntryOf(e.attempt))
    ensures pending == JournalIn(Then(l, e).memory) && disk == JournalIn(Then(l, e).disk)
    ensures Settles(JournalIn(l.memory), e.facts) == Settles(l.memory, e.facts)
  {
    hide Digestible, Revision, Journals;
    JournalsIn(l.memory, l.disk, e.facts, EntryFor(l, e));
  }

  method TakeRestore(b: ProgramBackupStore, c: Controller, stations: int, env: RestoreEnv, ghost l: Ledger)
    returns (ghost e: Event)
    requires b.Valid() && b.Anchored() && RestoreEnvOk(env) && Holds(l, b)
    modifies b, c
    ensures b.Valid() && b.Anchored() && EventOk(e) && Tells(e, TryRestore(env), stations) && Judged(l, e)
    ensures Holds(Then(l, e), b) && e.Tried? && e.was == old(c.store) && e.now == c.store
  {
    hide IsSnapshot, Digestible, Revision, Recorded, AttemptOk, AcceptedTo, VerdictOf, Journals, OutcomeOf, Then, Delivered,
         ProgramBackupStore.Valid, ProgramBackupStore.Anchored, JournalOf, OneShot;
    ghost var was := c.store;
    ghost var a, facts;
    var outcome;
    outcome, a, facts := RestoreIrrigationPrograms(b, c, stations, env);
    e := Tried(facts, a, b.programs, if facts.tried then Some(env.first.snapshot) else None, env.write.readback, was, c.store);
    AttemptDigests(a, env, b.programs, stations);
    ThenHolds(l, e, b.pending, DurableJournal(b.disk));
  }

  lemma AttemptDigests(a: Option<Attempt>, env: RestoreEnv, backup: Backup, stations: int)
    requires a.Some? ==> AttemptOk(a.value, env, backup, stations)
    ensures a.Some? ==> Digestible(a.value.before) && Digestible(a.value.expected)
  {
  }

  method TakePoll(b: ProgramBackupStore, observed: Option<Snapshot>, saved: bool, stations: int, ghost d: Store, ghost l: Ledger)
    returns (ghost e: Event)
    requires b.Valid() && b.Anchored() && StepOk(PollRead(observed, saved)) && Holds(l, b)
    modifies b
    ensures b.Valid() && b.Anchored() && EventOk(e) && Tells(e, PollRead(observed, saved), stations) && Judged(l, e)
    ensures Holds(Then(l, e), b) && e.Tried? && e.was == e.now == d
  {
    hide IsSnapshot, Digestible, Revision, VerdictOf, Then, ProgramBackupStore.Valid, ProgramBackupStore.Anchored;
    ghost var facts := Facts(observed.Some?, Diverged, saved, Unplannable, false, Open, 0, false, false);
    if observed.Some? {
      var raised;
      raised, facts := Resume(b, observed.value, saved, facts);
    }
    e := Tried(facts, None, b.programs, observed, Broken(Failed), d, d);
    ThenHolds(l, e, b.pending, DurableJournal(b.disk));
  }

  method Reopen(b: ProgramBackupStore, saved: bool, ghost l: Ledger) returns (b': ProgramBackupStore)
    requires b.Valid() && Holds(l, b)
    ensures fresh(b') && b'.Valid() && b'.Anchored() && Holds(Then(l, Reloaded), b')
  {
    hide IsSnapshot;
    b' := new ProgramBackupStore(b.disk);
    var _, _ := b'.Load(saved);
  }

  lemma ReloadTells(step: Step, stations: int, l: Ledger)
    requires step.Reload?
    ensures EventOk(Reloaded) && Tells(Reloaded, step, stations) && Judged(l, Reloaded)
  {
  }

  /** One step, told as an event. */
  method Take(b: ProgramBackupStore, c: Controller, stations: int, step: Step, ghost l: Ledger)
    returns (b': ProgramBackupStore, ghost e: Event)
    requires b.Valid() && b.Anchored() && StepOk(step) && Holds(l, b)
    modifies b, c
    ensures b'.Valid() && b'.Anchored() && (b' == b || fresh(b'))
    ensures EventOk(e) && Tells(e, step, stations) && Judged(l, e) && Holds(Then(l, e), b')
    ensures if e.Tried? then e.was == old(c.store) && e.now == c.store else c.store == old(c.store)
  {
    hide Tells, Judged, EventOk, Then, RestoreEnvOk, ProgramBackupStore.Valid, ProgramBackupStore.Anchored;
    b' := b;
    match step {
      case TryRestore(env) => e := TakeRestore(b, c, stations, env, l);
      case PollRead(observed, saved) => e := TakePoll(b, observed, saved, stations, c.store, l);
      case Reload(saved) =>
        b' := Reopen(b, saved, l);
        e := Reloaded;
        ReloadTells(step, stations, l);
    }
  }

  function StoreAfter(d: Store, events: seq<Event>): Store {
    if events == [] then d
    else
      var e := events[|events| - 1];
      if e.Tried? then e.now else StoreAfter(d, events[..|events| - 1])
  }

  /** Event `k` is what its step came to, and starts from where the one before left off. */
  ghost predicate RecountedAt(events: seq<Event>, step: Step, stations: int, d: Store, l: Ledger, k: int)
    requires EventsOk(events) && 0 <= k < |events|
  {
    && Tells(events[k], step, stations) && Judged(After(l, events[..k]), events[k])
    && (events[k].Tried? ==> events[k].was == StoreAfter(d, events[..k]))
  }

  ghost predicate Recounts(events: seq<Event>, steps: seq<Step>, stations: int, d: Store, l: Ledger) {
    && |events| == |steps| && EventsOk(events)
    && forall k :: 0 <= k < |events| ==> RecountedAt(events, steps[k], stations, d, l, k)
  }

  lemma RecountsMore(events: seq<Event>, e: Event, steps: seq<Step>, stations: int, d: Store, l: Ledger)
    requires |events| < |steps| && Recounts(events, steps[..|events|], stations, d, l)
    requires EventOk(e) && Tells(e, steps[|events|], stations) && Judged(After(l, events), e)
    requires e.Tried? ==> e.was == StoreAfter(d, events)
    ensures Recounts(events + [e], steps[..|events| + 1], stations, d, l)
    ensures After(l, events + [e]) == Then(After(l, events), e)
    ensures StoreAfter(d, events + [e]) == if e.Tried? then e.now else StoreAfter(d, events)
  {
    hide EventOk, Tells, Judged, Then;
    var n, more := |events|, events + [e];
    assert more[..n] == events;
    forall k | 0 <= k <= n
      ensures RecountedAt(more, steps[k], stations, d, l, k)
    {
      assert more[..k] == events[..k];
      if k < n { assert RecountedAt(events, steps[..n][k], stations, d, l, k); }
    }
  }

  /** The durable journals before, between and after the events. */
  ghost predicate DurableJournals(disks: seq<Option<Journal>>, l: Ledger, events: seq<Event>)
    requires EventsOk(events)
  {
    |disks| == |events| + 1 && forall k :: 0 <= k <= |events| ==> disks[k] == JournalIn(After(l, events[..k]).disk)
  }

  lemma DurableMore(disks: seq<Option<Journal>>, l: Ledger, events: seq<Event>, e: Event)
    requires EventsOk(events) && EventOk(e) && DurableJournals(disks, l, events)
    ensures EventsOk(events + [e])
    ensures DurableJournals(disks + [JournalIn(After(l, events + [e]).disk)], l, events + [e])
  {
    hide EventOk, Then;
    var more := events + [e];
    assert forall k :: 0 <= k <= |events| ==> more[..k] == events[..k];
    assert more[..|more|] == more;
  }

  /** Over any sequence of attempts, polls and restarts, in any environment: the durable journals are the ledger's, and
      the journal of an undecided controller is durable throughout if and only if no event forgets it. */
  method Run(b: ProgramBackupStore, c: Controller, stations: int, steps: seq<Step>, ghost l: Ledger)
    returns (b': ProgramBackupStore, ghost events: seq<Event>, ghost disks: seq<Option<Journal>>)
    requires b.Valid() && b.Anchored() && Holds(l, b) && Safe(l) && forall k :: 0 <= k < |steps| ==> StepOk(steps[k])
    modifies b, c
    ensures b'.Valid() && b'.Anchored() && Recounts(events, steps, stations, old(c.store), l)
    ensures c.store == StoreAfter(old(c.store), events) && Holds(After(l, events), b')
    ensures DurableJournals(disks, l, events) && disks[|steps|] == DurableJournal(b'.disk)
    ensures (forall k :: 0 <= k <= |steps| ==> After(l, events[..k]).undecided ==> disks[k].Some?) <==> NeverForgets(l, events)
  {
    hide StepOk, Tells, Judged, EventOk, Then, Forgets, Recounts, DurableJournals, ProgramBackupStore.Valid,
         ProgramBackupStore.Anchored;
    b', events, disks := b, [], [DurableJournal(b.disk)];
    NothingYet(disks, steps, stations, c.store, l);
    for n := 0 to |steps|
      invariant b'.Valid() && b'.Anchored() && (b' == b || fresh(b'))
      invariant |events| == n && EventsOk(events) && Recounts(events, steps[..n], stations, old(c.store), l)
      invariant c.store == StoreAfter(old(c.store), events) && Holds(After(l, events), b')
      invariant DurableJournals(disks, l, events)
    {
      ghost var e;
      b', e := Take(b', c, stations, steps[n], After(l, events));
      RecountsMore(events, e, steps, stations, old(c.store), l);
      DurableMore(disks, l, events, e);
      disks := disks + [JournalIn(After(l, events + [e]).disk)];
      events := events + [e];
    }
    assert steps[..|steps|] == steps;
    JournalKept(l, events);
    KeptOnDisk(disks, l, events);
  }

  lemma NothingYet(disks: seq<Option<Journal>>, steps: seq<Step>, stations: int, d: Store, l: Ledger)
    requires disks == [JournalIn(l.disk)]
    ensures Recounts([], steps[..0], stations, d, l) && DurableJournals(disks, l, [])
  {
    var none: seq<Event> := [];
    assert none[..0] == none;
  }

  lemma KeptOnDisk(disks: seq<Option<Journal>>, l: Ledger, events: seq<Event>)
    requires EventsOk(events) && DurableJournals(disks, l, events)
    ensures |disks| == |events| + 1 && disks[|events|] == JournalIn(After(l, events).disk)
    ensures (forall k :: 0 <= k <= |events| ==> After(l, events[..k]).undecided ==> disks[k].Some?) <==> SafeThroughout(l, events)
  {
    assert events[..|events|] == events;
  }
}
