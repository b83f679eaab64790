/** What an empty restore journal says about the controller itself, over whole histories with faithful reads. */
module RestoreSafety {
  import opened Options
  import opened Bytes
  import opened Protocol
  import opened Snapshots
  import opened Patching
  import opened Editor
  import opened Replay
  import opened Device
  import opened Restore
  import opened ProgramBackup
  import opened Reconciliation
  import opened RestoreTransaction
  import opened RestoreHistory

  // ---- the frames of a plan keep the store in shape ----------------------------------------------

  /** The payload is as long as the chunk it addresses. */
  predicate Sized(w: Frame) {
    Target(w).Some? ==> 0 <= Target(w).value.1 < 7 && |w| == StandardLength(Target(w).value.1)
  }

  lemma SizedKeeps(d: Store, w: Frame)
    requires StoreOk(d) && Sized(w)
    ensures StoreOk(ApplyWrite(d, w))
  {
    hide Target, StandardLength;
  }

  lemma {:induction false} DeliveredOk(d: Store, ws: seq<Frame>, ds: nat -> Delivery)
    requires StoreOk(d) && forall k :: 0 <= k < |ws| ==> Sized(ws[k])
    ensures StoreOk(Delivered(d, ws, ds))
  {
    hide StoreOk, Sized, ApplyWrite;
    if ws != [] {
      var n := |ws| - 1;
      DeliveredOk(d, ws[..n], ds);
      SizedKeeps(Delivered(d, ws[..n], ds), ws[n]);
    }
  }

  lemma PatchSized(s: Snapshot, i: int, cs: seq<Change>, stations: int, ws: seq<Frame>, e: Snapshot)
    requires PatchYields(s, i, cs, stations, ws, e)
    ensures forall k :: 0 <= k < |ws| ==> Sized(ws[k])
  {
    hide PatchYields, BlockWrites;
    if ws != [] {
      var b := PatchedBlockKeyed(s, i, cs, stations, ws, e);
      KeyedLength(b, i);
      forall k | 0 <= k < 7
        ensures Sized(BlockWrites(b)[k])
      {
        WriteFrameTarget(b, i, k);
        WriteLength(b, k);
      }
    }
  }

  lemma WriteLength(b: seq<NFrame>, k: int)
    requires StandardBlock(b) && 0 <= k < 7
    ensures |BlockWrites(b)[k]| == StandardLength(k)
  {
  }

  lemma {:induction false} PlanSized(s: Snapshot, backup: Backup, stations: int, n: nat, ws: seq<Frame>, e: Snapshot)
    requires PlanYields(s, backup, stations, n, ws, e)
    ensures forall k :: 0 <= k < |ws| ==> Sized(ws[k])
  {
    hide PatchYields, Sized;
    if n > 0 && n - 1 in backup {
      var m, a, b :| PlanStep(s, backup, stations, n, a, m, b, e) && ws == a + b;
      PlanSized(s, backup, stations, n - 1, a, m);
      PatchSized(m, n - 1, BackupChanges(backup[n - 1], stations), stations, b, e);
    } else if n > 0 {
      PlanSized(s, backup, stations, n - 1, ws, e);
    }
  }

  /** An attempt leaves every chunk with its standard length. */
  lemma StillOk(e: Event, env: RestoreEnv, stations: int)
    requires e.Tried? && Tells(e, TryRestore(env), stations) && StoreOk(e.was)
    ensures StoreOk(e.now)
  {
    hide StoreOk, Reports, PlanYields, Sized, Delivered, Digestible, Opened, RefusedUpfront, Revision;
    if e.facts.sent > 0 {
      var a := e.attempt.value;
      PlanSized(a.before, e.backup, stations, 3, a.frames, a.expected);
      DeliveredOk(e.was, a.frames[..e.facts.sent], env.write.deliveries);
    }
  }

  // ---- what is read and what is meant -----------------------------------------------------------

  /** A faithful read of the store, the hidden slots numbered by `hidden`. */
  ghost predicate FaithfulRead(d: Store, hidden: seq<int>, s: Snapshot) {
    StoreOk(d) && IsSnapshot(s, s.frames) && exists tops :: ReadAs(d, tops, hidden, s)
  }

  ghost predicate ReadAs(d: Store, tops: seq<int>, hidden: seq<int>, s: Snapshot)
    requires StoreOk(d)
  {
    TopsOk(tops) && tops[3..] == hidden && Reads(d, tops, s.frames)
  }

  /** What the event read of a well-formed store was what the controller held, before it and after it. */
  ghost predicate Faithful(e: Event, hidden: seq<int>) {
    e.Tried? ==>
      && (e.seen.Some? && StoreOk(e.was) ==> FaithfulRead(e.was, hidden, e.seen.value))
      && (e.readback.Read? && e.facts.sent > 0 && StoreOk(e.now) ==> FaithfulRead(e.now, hidden, e.readback.snapshot))
  }

  /** The states a history aims at: the first store, and what each plan would make of the store it was made for. */
  function Milestones(d: Store, events: seq<Event>): set<Store> {
    if events == [] then {d} else Milestones(d, events[..|events| - 1]) + Aim(events[|events| - 1])
  }

  function Aim(e: Event): set<Store> {
    if e.Tried? && e.attempt.Some? then {ApplyWrites(e.was, e.attempt.value.frames)} else {}
  }

  /** Wholly one of these states, up to the day bytes that the controller itself rewrites. */
  ghost predicate Whole(d: Store, milestones: set<Store>) {
    exists m :: m in milestones && UpToDays(d, m)
  }

  /** The journal records a read of a controller holding `d` and the expectation of one holding `done`. */
  ghost predicate Records(j: Journal, d: Store, done: Store, tops: seq<int>, hidden: seq<int>, before: Snapshot,
                          expected: Snapshot) {
    && StoreOk(d) && StoreOk(done) && TopsOk(tops) && tops[3..] == hidden
    && Describes(before, d, tops) && Describes(expected, done, tops)
    && IsSnapshot(expected, expected.frames) && Digestible(before) && Digestible(expected) && j == JournalOf(before, expected)
  }

  /** The journal aims at a milestone, and unless it is doubtful it started from a whole state. */
  ghost predicate Backed(entry: Entry, milestones: set<Store>, hidden: seq<int>) {
    exists d, done, tops, before, expected ::
      Records(entry.journal, d, done, tops, hidden, before, expected) && done in milestones
      && (!entry.doubtful ==> Whole(d, milestones))
  }

  ghost predicate Sound(l: Ledger, d: Store, milestones: set<Store>, hidden: seq<int>) {
    && StoreOk(d) && (!l.undecided ==> Whole(d, milestones))
    && (l.memory.Some? ==> Backed(l.memory.value, milestones, hidden))
    && (l.disk.Some? ==> Backed(l.disk.value, milestones, hidden))
  }

  lemma BackedMore(entry: Entry, milestones: set<Store>, more: set<Store>, hidden: seq<int>)
    requires Backed(entry, milestones, hidden) && milestones <= more
    ensures Backed(entry, more, hidden)
  {
    hide Records, UpToDays;
    var d, done, tops, before, expected :|
      Records(entry.journal, d, done, tops, hidden, before, expected) && done in milestones
      && (!entry.doubtful ==> Whole(d, milestones));
  }

  lemma WholeMore(d: Store, milestones: set<Store>, more: set<Store>)
    requires Whole(d, milestones) && milestones <= more
    ensures Whole(d, more)
  {
  }

  lemma WholeMilestone(d: Store, milestones: set<Store>)
    requires d in milestones
    ensures Whole(d, milestones)
  {
    SameStoreUpToDays(d);
  }

  /** A read that decides, decides rightly. */
  lemma VerdictWhole(entry: Entry, d: Store, s: Snapshot, milestones: set<Store>, hidden: seq<int>)
    requires Backed(entry, milestones, hidden) && FaithfulRead(d, hidden, s) && Digestible(s)
    ensures var v := VerdictOf(s, entry.journal);
            v.Confirmed? || (v.Unchanged? && !entry.doubtful) ==> Whole(d, milestones)
  {
    hide StoreOk, Describes, Reads, IsSnapshot, Digestible, VerdictOf, UpToDays, JournalOf, Revision;
    var b, done, tops, before, expected :|
      Records(entry.journal, b, done, tops, hidden, before, expected) && done in milestones
      && (!entry.doubtful ==> Whole(b, milestones));
    var tops' :| ReadAs(d, tops', hidden, s);
    ReconcileIsSound(b, done, d, tops, tops', before, expected, s);
  }

  lemma ReadDecides(l: Ledger, e: Event, milestones: set<Store>, hidden: seq<int>)
    requires e.Tried? && Sound(l, e.was, milestones, hidden) && Judged(l, e) && Faithful(e, hidden)
    requires !StillUndecided(l, e.facts)
    ensures Whole(e.was, milestones)
  {
    hide Backed, FaithfulRead, VerdictOf, Whole, Digestible;
    if l.undecided {
      VerdictWhole(l.memory.value, e.was, e.seen.value, milestones, hidden);
    }
  }

  /** The journal an attempt writes is backed. */
  lemma EntryBacked(l: Ledger, e: Event, env: RestoreEnv, stations: int, milestones: set<Store>, hidden: seq<int>)
    requires EventOk(e) && e.Tried? && e.attempt.Some? && AttemptOk(e.attempt.value, env, e.backup, stations)
    requires FaithfulRead(e.was, hidden, e.attempt.value.before)
    requires !StillUndecided(l, e.facts) ==> Whole(e.was, milestones)
    ensures Backed(EntryFor(l, e).value, milestones + Aim(e), hidden)
    ensures StoreOk(ApplyWrites(e.was, e.attempt.value.frames))
  {
    hide StoreOk, Describes, Reads, IsSnapshot, Digestible, UpToDays, JournalOf, PlanYields, ApplyWrites;
    var a := e.attempt.value;
    var tops :| ReadAs(e.was, tops, hidden, a.before);
    ReadDescribes(e.was, tops, a.before.frames, a.before);
    PlanMovesStore(a.before, e.was, tops, e.backup, stations, 3, a.frames, a.expected);
    PlannedDigest(a.before, e.backup, stations, a.frames, a.expected);
    assert Records(JournalOf(a.before, a.expected), e.was, ApplyWrites(e.was, a.frames), tops, hidden, a.before, a.expected);
    if Whole(e.was, milestones) { WholeMore(e.was, milestones, milestones + Aim(e)); }
  }

  // ---- one event --------------------------------------------------------------------------------

  /** A restore that wrote all its frames and read them back left the planned state. */
  lemma VerifiedWhole(e: Event, env: RestoreEnv, stations: int, hidden: seq<int>)
    requires e.Tried? && e.attempt.Some? && AttemptOk(e.attempt.value, env, e.backup, stations) && RestoreEnvOk(env)
    requires Recorded(e.facts, e.attempt.value, env) && e.facts.planned.FramesToSend? && env.begun && e.facts.ending.AsPlanned?
    requires FaithfulRead(e.was, hidden, e.attempt.value.before) && e.readback == env.write.readback && Faithful(e, hidden)
    requires StoreOk(e.now)
    ensures e.now == ApplyWrites(e.was, e.attempt.value.frames)
  {
    hide StoreOk, Reads, IsSnapshot, Digestible, PlanYields, ApplyWrites, Revision, Opened, RefusedUpfront;
    var a := e.attempt.value;
    var tops :| ReadAs(e.was, tops, hidden, a.before);
    var verified := env.write.readback.snapshot;
    var tops' :| ReadAs(e.now, tops', hidden, verified);
    RestoredMeansRestored(a, env, e.backup, stations, verified, e.was, tops, e.now, tops');
  }

  /** Where the ledger says decided, the controller is whole. */
  lemma DecidedWhole(l: Ledger, e: Event, env: RestoreEnv, stations: int, milestones: set<Store>, hidden: seq<int>)
    requires EventOk(e) && e.Tried? && Tells(e, TryRestore(env), stations) && RestoreEnvOk(env) && Faithful(e, hidden)
    requires !StillUndecided(l, e.facts) ==> Whole(e.was, milestones)
    requires !UndecidedAfter(l, e.facts) && e.attempt.Some? && GoesOn(l, e.facts) && StoreOk(e.was)
    ensures Whole(e.now, milestones + Aim(e))
  {
    hide StoreOk, IsSnapshot, Digestible, PlanYields, Whole, StillUndecided, Faithful, FaithfulRead, Opened, RefusedUpfront, Delivered,
         RestoreEnvOk, Revision;
    var a, f, more := e.attempt.value, e.facts, milestones + Aim(e);
    SeenIsBefore(e, env, stations, hidden);
    StillOk(e, env, stations);
    WholeMilestone(ApplyWrites(e.was, a.frames), more);
    if f.planned.NothingToDo? {
      assert ApplyWrites(e.was, []) == e.was;
    } else if f.begun && f.ending.AsPlanned? {
      VerifiedWhole(e, env, stations, hidden);
    } else {
      WholeMore(e.was, milestones, more);
    }
  }

  lemma SeenIsBefore(e: Event, env: RestoreEnv, stations: int, hidden: seq<int>)
    requires e.Tried? && e.attempt.Some? && Tells(e, TryRestore(env), stations) && Faithful(e, hidden) && StoreOk(e.was)
    ensures e.seen == Some(e.attempt.value.before) && FaithfulRead(e.was, hidden, e.attempt.value.before)
  {
    hide IsSnapshot, Digestible, PlanYields, FaithfulRead, Recorded, Delivered;
  }

  /** An attempt that never planned, or a poll, only read. */
  lemma ReadOnlySound(l: Ledger, e: Event, milestones: set<Store>, hidden: seq<int>)
    requires EventOk(e) && e.Tried? && e.attempt.None? && e.facts.planned.Unplannable? && e.now == e.was
    requires Sound(l, e.was, milestones, hidden)
    requires !StillUndecided(l, e.facts) ==> Whole(e.was, milestones)
    ensures Sound(Then(l, e), e.now, milestones, hidden)
  {
    hide Backed, Whole, Digestible;
  }

  /** No journal comes from anywhere else. */
  lemma JournalsAmong<E>(memory: Option<E>, disk: Option<E>, f: Facts, entry: Option<E>)
    ensures var journals := Journals(memory, disk, f, entry);
            && (journals.0 == memory || journals.0.None? || journals.0 == entry)
            && (journals.1 == disk || journals.1.None? || journals.1 == entry)
  {
  }

  lemma AttemptSound(l: Ledger, e: Event, env: RestoreEnv, stations: int, milestones: set<Store>, hidden: seq<int>)
    requires EventOk(e) && e.Tried? && Tells(e, TryRestore(env), stations) && RestoreEnvOk(env) && Faithful(e, hidden)
    requires e.attempt.Some? && GoesOn(l, e.facts) && Sound(l, e.was, milestones, hidden)
    requires !StillUndecided(l, e.facts) ==> Whole(e.was, milestones)
    ensures Sound(Then(l, e), e.now, milestones + Aim(e), hidden)
  {
    hide IsSnapshot, Digestible, Faithful, FaithfulRead, Backed, Whole, AttemptOk, Recorded, Delivered, Aim, StillUndecided,
         RestoreEnvOk, Journals;
    var more := milestones + Aim(e);
    SeenIsBefore(e, env, stations, hidden);
    StillOk(e, env, stations);
    EntryBacked(l, e, env, stations, milestones, hidden);
    if l.memory.Some? { BackedMore(l.memory.value, milestones, more, hidden); }
    if l.disk.Some? { BackedMore(l.disk.value, milestones, more, hidden); }
    if !UndecidedAfter(l, e.facts) { DecidedWhole(l, e, env, stations, milestones, hidden); }
    JournalsAmong(l.memory, l.disk, e.facts, EntryFor(l, e));
    hide Tells, EntryFor, UndecidedAfter;
  }

  /** Every event keeps the ledger sound. */
  lemma StepSound(l: Ledger, e: Event, step: Step, stations: int, d: Store, milestones: set<Store>, hidden: seq<int>)
    requires EventOk(e) && StepOk(step) && Tells(e, step, stations) && Judged(l, e) && Faithful(e, hidden)
    requires Sound(l, d, milestones, hidden) && (e.Tried? ==> e.was == d)
    ensures Sound(Then(l, e), if e.Tried? then e.now else d, milestones + Aim(e), hidden)
  {
    hide IsSnapshot, Digestible, Faithful, FaithfulRead, Backed, Whole, AttemptOk, Recorded, Delivered, StillUndecided,
         RestoreEnvOk, VerdictOf;
    if e.Tried? {
      if !StillUndecided(l, e.facts) { ReadDecides(l, e, milestones, hidden); }
      if e.attempt.Some? {
        AttemptSound(l, e, step.env, stations, milestones, hidden);
      } else {
        assert milestones + Aim(e) == milestones;
        hide Then;
        ReadOnlySound(l, e, milestones, hidden);
      }
    } else {
      assert milestones + Aim(e) == milestones;
    }
  }

  // ---- whole histories ------------------------------------------------------------------------------

  lemma {:induction false} HistorySound(l: Ledger, events: seq<Event>, steps: seq<Step>, stations: int, d: Store, hidden: seq<int>)
    requires Recounts(events, steps, stations, d, l)
    requires forall k :: 0 <= k < |steps| ==> StepOk(steps[k]) && Faithful(events[k], hidden)
    requires Sound(l, d, {d}, hidden)
    ensures Sound(After(l, events), StoreAfter(d, events), Milestones(d, events), hidden)
  {
    hide StepOk, Faithful, Sound, Tells, Judged, Then, EventOk;
    if events != [] {
      var n := |events| - 1;
      forall k | 0 <= k < n
        ensures RecountedAt(events[..n], steps[k], stations, d, l, k)
      {
        assert RecountedAt(events, steps[k], stations, d, l, k) && events[..n][..k] == events[..k];
      }
      HistorySound(l, events[..n], steps[..n], stations, d, hidden);
      assert RecountedAt(events, steps[n], stations, d, l, n);
      StepSound(After(l, events[..n]), events[n], steps[n], stations, StoreAfter(d, events[..n]), Milestones(d, events[..n]), hidden);
    }
  }

  /** A history that starts with no journal, never forgets one and reads faithfully: whenever the durable journal is
      empty, the controller is wholly, up to day bytes, in its first state or in the state that one of the plans
      aimed at. */
  lemma NoJournalMeansWhole(events: seq<Event>, steps: seq<Step>, stations: int, d: Store, hidden: seq<int>)
    requires Recounts(events, steps, stations, d, Ledger(None, None, false))
    requires forall k :: 0 <= k < |steps| ==> StepOk(steps[k]) && Faithful(events[k], hidden)
    requires StoreOk(d) && NeverForgets(Ledger(None, None, false), events)
    ensures StoreOk(StoreAfter(d, events))
    ensures After(Ledger(None, None, false), events).disk.None? ==> Whole(StoreAfter(d, events), Milestones(d, events))
  {
    hide StepOk, Faithful, Tells, Judged, Then, EventOk, Whole, NeverForgets;
    var l := Ledger(None, None, false);
    WholeMilestone(d, {d});
    HistorySound(l, events, steps, stations, d, hidden);
    JournalKept(l, events);
  }
}
