/** One restore attempt against a controller that may acknowledge, reject, drop, be cancelled or outlive a
    crash of this process: `restore_irrigation_programs` and `write_program_frames`. */
module RestoreTransaction {
  import opened Options
  import opened Bytes
  import opened Snapshots
  import opened Replay
  import opened Device
  import opened Restore
  import opened ProgramBackup
  import opened Reconciliation

  // ---- the environment ---------------------------------------------------------------

  datatype Interruption = Failed | Cancelled | Died

  datatype Reading = Read(snapshot: Snapshot) | Broken(why: Interruption)

  /** What comes back for one frame, and whether the controller stored it, which no reply reveals. */
  datatype Delivery = Delivery(reply: Reply, applied: bool)
  datatype Reply = Acked | Nacked | Interrupted(why: Interruption)

  /** The preflight read, opening the mutation link, one delivery per frame, the read-back, closing the link. */
  datatype WriteEnv = WriteEnv(
    preflight: Reading, link: Option<Interruption>, deliveries: nat -> Delivery, readback: Reading,
    closing: Option<Interruption>)

  /** Admission covers the idle, status and firmware checks; the flags are the fates of durable saves. */
  datatype RestoreEnv = RestoreEnv(
    admitted: bool, first: Reading, reconciled: bool, begun: bool, aborted: bool, finished: bool, write: WriteEnv)

  predicate ReadingOk(r: Reading) {
    r.Read? ==> Digestible(r.snapshot)
  }

  ghost predicate WriteEnvOk(env: WriteEnv) {
    && (env.preflight.Read? ==> IsSnapshot(env.preflight.snapshot, env.preflight.snapshot.frames))
    && (env.readback.Read? ==> IsSnapshot(env.readback.snapshot, env.readback.snapshot.frames))
    && ReadingOk(env.preflight) && ReadingOk(env.readback)
  }

  ghost predicate RestoreEnvOk(env: RestoreEnv) {
    && (env.first.Read? ==> IsSnapshot(env.first.snapshot, env.first.snapshot.frames))
    && ReadingOk(env.first) && WriteEnvOk(env.write)
  }

  class Controller {
    var store: Store
    ghost var sent: seq<Frame>

    constructor (d: Store)
      ensures store == d && sent == []
    {
      store, sent := d, [];
    }

    method Receive(frame: Frame, applied: bool)
      modifies this
      ensures store == if applied then ApplyWrite(old(store), frame) else old(store)
      ensures sent == old(sent) + [frame]
    {
      if applied { store := ApplyWrite(store, frame); }
      sent := sent + [frame];
    }
  }

  /** The store after some of the frames took effect, each at most once and in order. */
  function Delivered(d: Store, ws: seq<Frame>, ds: nat -> Delivery): Store
  {
    if ws == [] then d
    else
      var n, m := |ws| - 1, Delivered(d, ws[..|ws| - 1], ds);
      if ds(n).applied then ApplyWrite(m, ws[n]) else m
  }

  lemma DeliveredStep(d: Store, ws: seq<Frame>, ds: nat -> Delivery, k: nat)
    requires k < |ws|
    ensures Delivered(d, ws[..k + 1], ds) ==
              if ds(k).applied then ApplyWrite(Delivered(d, ws[..k], ds), ws[k]) else Delivered(d, ws[..k], ds)
  {
    assert ws[..k + 1][..k] == ws[..k];
  }

  /** When every frame took effect the whole plan did. */
  lemma {:induction false} AllDelivered(d: Store, ws: seq<Frame>, ds: nat -> Delivery)
    requires forall k :: 0 <= k < |ws| ==> ds(k).applied
    ensures Delivered(d, ws, ds) == ApplyWrites(d, ws)
  {
    if ws != [] { AllDelivered(d, ws[..|ws| - 1], ds); }
  }

  // ---- write_program_frames -------------------------------------------------------------

  /** `Refused` is any exception other than `UncertainWrite`; `Stopped` a cancellation or a crash. */
  datatype WriteOutcome = Verified(actual: Snapshot) | Uncertain | Refused | Stopped

  function Interrupt(why: Interruption, mutationStarted: bool): WriteOutcome {
    if why.Failed? then (if mutationStarted then Uncertain else Refused) else Stopped
  }

  /** Read back in the expected state and checked, over a link that opened: the first frame leaves. */
  ghost predicate Opened(frames: seq<Frame>, expected: Snapshot, beforeRevision: Frame, env: WriteEnv)
    requires |expected.blocks| == 3
  {
    && env.preflight.Read? && Digestible(env.preflight.snapshot) && env.link.None?
    && Revision(env.preflight.snapshot) == beforeRevision && Explains(env.preflight.snapshot, frames, expected)
  }

  /** Frames leave in order, each once, each after the acknowledgement of the one before; nothing leaves
      unless the controller was just read in the expected state and the expectation was checked against it. */
  ghost predicate OneShot(n: nat, frames: seq<Frame>, expected: Snapshot, beforeRevision: Frame, env: WriteEnv) {
    && n <= |frames|
    && (forall k :: 0 <= k < n - 1 ==> env.deliveries(k).reply.Acked?)
    && (n > 0 ==> |expected.blocks| == 3 && Opened(frames, expected, beforeRevision, env))
  }

  /** Checked, sent in full, acknowledged throughout, and read back with the expected revision. */
  ghost predicate Confirmed(frames: seq<Frame>, expected: Snapshot, beforeRevision: Frame, env: WriteEnv)
    requires Digestible(expected)
  {
    && Opened(frames, expected, beforeRevision, env) && env.closing.None?
    && (forall k :: 0 <= k < |frames| ==> env.deliveries(k).reply.Acked?)
    && env.readback.Read? && Digestible(env.readback.snapshot) && Revision(env.readback.snapshot) == Revision(expected)
  }

  /** Whatever keeps the first frame from leaving is a failure, not a cancellation or a crash. */
  ghost predicate RefusedUpfront(frames: seq<Frame>, expected: Snapshot, beforeRevision: Frame, env: WriteEnv)
    requires |expected.blocks| == 3
  {
    match env.preflight
    case Broken(why) => why.Failed?
    case Read(current) =>
      env.link == Some(Failed)
      || (Digestible(current) && (Revision(current) != beforeRevision || !Explains(current, frames, expected)))
  }

  /** The task is cancelled, or the process dies, in the step it has reached. */
  ghost predicate CutShort(n: nat, frames: seq<Frame>, expected: Snapshot, beforeRevision: Frame, env: WriteEnv)
    requires Digestible(expected)
  {
    match env.preflight
    case Broken(why) => !why.Failed?
    case Read(current) =>
      && Digestible(current) && Revision(current) == beforeRevision && |expected.blocks| == 3
      && Explains(current, frames, expected)
      && if env.link.Some? then !env.link.value.Failed?
         else if exists k :: 0 <= k < n && !env.deliveries(k).reply.Acked? then
           n > 0 && env.deliveries(n - 1).reply.Interrupted? && !env.deliveries(n - 1).reply.why.Failed?
         else
           match env.readback
           case Broken(why) => !why.Failed?
           case Read(actual) => Digestible(actual) && Revision(actual) == Revision(expected)
                                && env.closing.Some? && !env.closing.value.Failed?
  }

  method WriteProgramFrames(c: Controller, frames: seq<Frame>, expected: Snapshot, beforeRevision: Frame, env: WriteEnv)
    returns (outcome: WriteOutcome, ghost n: nat)
    requires WriteEnvOk(env) && Digestible(expected)
    modifies c
    ensures OneShot(n, frames, expected, beforeRevision, env)
    ensures c.sent == old(c.sent) + frames[..n]
    ensures c.store == Delivered(old(c.store), frames[..n], env.deliveries)
    ensures |expected.blocks| == 3 && (n > 0 <==> frames != [] && Opened(frames, expected, beforeRevision, env))
    ensures 0 < n < |frames| ==> !env.deliveries(n - 1).reply.Acked?
    ensures outcome.Refused? ==> n == 0
    ensures frames != [] ==> (outcome.Refused? <==> RefusedUpfront(frames, expected, beforeRevision, env))
    ensures outcome.Verified? <==> Confirmed(frames, expected, beforeRevision, env)
    ensures outcome.Verified? ==> n == |frames| && env.readback == Read(outcome.actual)
    ensures outcome.Stopped? <==> CutShort(n, frames, expected, beforeRevision, env)
  {
    hide IsSnapshot, Explains, Revision, Delivered, Digestible;
    n := 0;
    NoneDelivered(c.store, frames, env.deliveries);
    DigestibleShape(expected);
    if env.preflight.Broken? {
      return Interrupt(env.preflight.why, false), 0;
    }
    var current := env.preflight.snapshot;
    DigestibleShape(current);
    if Revision(current) != beforeRevision {
      return Refused, 0;
    }
    var explained := ValidateExpectedWrite(current, frames, expected);
    if !explained {
      return Refused, 0;
    }
    if env.link.Some? {
      return Interrupt(env.link.value, false), 0;
    }
    var mutationStarted := false;
    for block := 0 to |frames|
      invariant n == block && mutationStarted == (block > 0)
      invariant c.sent == old(c.sent) + frames[..n]
      invariant c.store == Delivered(old(c.store), frames[..n], env.deliveries)
      invariant forall k :: 0 <= k < n ==> env.deliveries(k).reply.Acked?
    {
      var delivery := env.deliveries(block);
      mutationStarted := true;
      DeliveredStep(old(c.store), frames, env.deliveries, block);
      c.Receive(frames[block], delivery.applied);
      n := block + 1;
      assert frames[..n] == frames[..block] + [frames[block]];
      if delivery.reply.Interrupted? {
        outcome := Interrupt(delivery.reply.why, mutationStarted);
        return;
      }
      if delivery.reply.Nacked? {
        outcome := Uncertain;
        return;
      }
    }
    if env.readback.Broken? {
      outcome := Interrupt(env.readback.why, mutationStarted);
    } else if Revision(env.readback.snapshot) != Revision(expected) {
      outcome := Uncertain;
    } else if env.closing.Some? {
      outcome := Interrupt(env.closing.value, mutationStarted);
    } else {
      outcome := Verified(env.readback.snapshot);
    }
  }

  lemma DigestibleShape(s: Snapshot)
    requires Digestible(s)
    ensures |s.blocks| == 3
  {
  }

  lemma NoneDelivered(d: Store, ws: seq<Frame>, ds: nat -> Delivery)
    ensures ws[..0] == [] && Delivered(d, ws[..0], ds) == d
  {
  }

  // ---- restore_irrigation_programs ---------------------------------------------------------

  /** What one attempt worked out before it touched the controller. */
  datatype Attempt = Attempt(before: Snapshot, expected: Snapshot, frames: seq<Frame>)

  datatype RestoreOutcome = Restored(verified: Snapshot) | Unneeded | NotAttempted | NotJournaled | NotMutated | Unconfirmed

  /** What the read plans: an entry is refused, nothing differs, or there are frames to send. */
  datatype Planned = Unplannable | NothingToDo | FramesToSend

  /** How writing ends: verified, refused before the first frame, or open. */
  datatype Ending = AsPlanned | BeforeFirst | Open

  /** What one attempt saw and did: whether it got as far as its first read; the verdict on a pending journal; what
      it planned; how the write ended and how many frames it sent; and which saves succeeded. */
  datatype Facts = Facts(
    tried: bool, verdict: Verdict, reconciled: bool, planned: Planned, begun: bool, ending: Ending, sent: nat,
    aborted: bool, finished: bool)

  /** The read settles the pending journal. */
  predicate Settles<E>(memory: Option<E>, f: Facts) {
    f.tried && memory.Some? && !f.verdict.Diverged?
  }

  /** What the read leaves of the journal, in memory and on disk. */
  function Reread<E>(memory: Option<E>, disk: Option<E>, f: Facts): (Option<E>, Option<E>) {
    if Settles(memory, f) then (None, if f.reconciled then None else disk) else (memory, disk)
  }

  /** What the part of an attempt that may touch the controller leaves; `entry` is the journal it writes. */
  function Committed<E>(disk: Option<E>, f: Facts, entry: Option<E>): (Option<E>, Option<E>) {
    if !f.begun then (entry, disk)
    else
      match f.ending
      case AsPlanned => (None, if f.finished then None else entry)
      case BeforeFirst => (None, if f.aborted then None else entry)
      case Open => (entry, entry)
  }

  /** What planning and all that follows leave. */
  function Proceeded<E>(reread: (Option<E>, Option<E>), f: Facts, entry: Option<E>): (Option<E>, Option<E>) {
    match f.planned
    case Unplannable => reread
    case NothingToDo => (None, if f.finished then None else reread.1)
    case FramesToSend => Committed(reread.1, f, entry)
  }

  /** What a whole attempt leaves. */
  function Journals<E>(memory: Option<E>, disk: Option<E>, f: Facts, entry: Option<E>): (Option<E>, Option<E>) {
    var reread := Reread(memory, disk, f);
    if !f.tried || (Settles(memory, f) && !f.reconciled) then reread
    else
      Proceeded(reread, f, entry)
  }

  function DurableJournal(disk: Option<Disk>): Option<Journal> {
    if disk.Some? then disk.value.pending else None
  }

  /** The facts the environment decides alone. */
  predicate Reports(f: Facts, env: RestoreEnv, backup: Backup) {
    && f.tried == (env.admitted && backup != map[] && env.first.Read?)
    && f.reconciled == env.reconciled && f.begun == env.begun && f.aborted == env.aborted && f.finished == env.finished
  }

  /** The planning went ahead, and what it and the write came to. */
  ghost predicate Recorded(f: Facts, a: Attempt, env: RestoreEnv)
    requires Digestible(a.expected) && Digestible(a.before)
  {
    && f.planned == (if a.frames == [] then NothingToDo else FramesToSend)
    && (a.frames != [] && env.begun ==>
          (f.ending.AsPlanned? <==> Confirmed(a.frames, a.expected, Revision(a.before), env.write))
          && (f.ending.BeforeFirst? <==> RefusedUpfront(a.frames, a.expected, Revision(a.before), env.write))
          && (f.sent > 0 <==> Opened(a.frames, a.expected, Revision(a.before), env.write)))
    && (a.frames == [] || !env.begun || f.ending.BeforeFirst? ==> f.sent == 0)
    && f.sent <= |a.frames|
    && (0 < f.sent < |a.frames| ==> !env.write.deliveries(f.sent - 1).reply.Acked?)
  }

  /** What an attempt that got as far as sending or not sending reports. */
  function OutcomeOf(f: Facts, verified: Snapshot): RestoreOutcome {
    if f.planned.NothingToDo? then Unneeded
    else if !f.begun then NotJournaled
    else if f.ending.BeforeFirst? then NotMutated
    else if f.ending.AsPlanned? && f.finished then Restored(verified)
    else Unconfirmed
  }

  ghost predicate AttemptOk(a: Attempt, env: RestoreEnv, backup: Backup, stations: int) {
    && env.first == Read(a.before) && Digestible(a.before) && Digestible(a.expected)
    && PlanYields(a.before, backup, stations, 3, a.frames, a.expected)
  }

  /** The durable store holds this attempt's journal. */
  ghost predicate Journaled(b: ProgramBackupStore, a: Attempt)
    requires Digestible(a.before) && Digestible(a.expected)
    reads b
  {
    b.disk.Some? && b.disk.value.pending == Some(JournalOf(a.before, a.expected))
  }

  lemma PlannedDigest(s: Snapshot, backup: Backup, stations: int, ws: seq<Frame>, e: Snapshot)
    requires IsSnapshot(s, s.frames) && Digestible(s) && PlanYields(s, backup, stations, 3, ws, e)
    ensures Digestible(e) && IsSnapshot(e, e.frames)
  {
    hide IsSnapshot, PlanYields, BackupChanges, Explains;
    PlanBlocks(s, backup, stations, 3, ws, e);
    forall i, k | 0 <= i < 3 && 0 <= k < 7
      ensures |e.blocks[i]| == 7 && |e.blocks[i][k]| == |s.blocks[i][k]|
    {
      assert e.blocks[i] == RestoredBlock(s, backup, stations, 3, i);
      assert s.blocks[i][k] in s.blocks[i];
    }
  }

  /** The frames that left, and what became of the controller. */
  ghost predicate Sends(a: Option<Attempt>, f: Facts, env: WriteEnv, was: Store, before: seq<Frame>, now: Store, after: seq<Frame>)
    requires a.Some? ==> Digestible(a.value.before)
  {
    && (a.None? ==> f.sent == 0 && after == before)
    && (a.Some? ==> OneShot(f.sent, a.value.frames, a.value.expected, Revision(a.value.before), env)
                    && after == before + a.value.frames[..f.sent]
                    && now == Delivered(was, a.value.frames[..f.sent], env.deliveries))
    && (f.sent == 0 ==> now == was)
  }

  /** One attempt. Whatever the environment does: the protected backup stays; frames leave as a prefix of the
      plan; once any frame has left, the journal of this very attempt is durable until the read-back
      has the expected revision and the verified snapshot is saved in its place. What is left of the journal in
      memory and on disk is exactly what `Journals` says. */
  method RestoreIrrigationPrograms(b: ProgramBackupStore, c: Controller, stations: int, env: RestoreEnv)
    returns (outcome: RestoreOutcome, ghost a: Option<Attempt>, ghost facts: Facts)
    requires b.Valid() && b.Anchored() && RestoreEnvOk(env)
    modifies b, c
    ensures b.Valid() && b.Anchored() && b.programs == old(b.programs)
    ensures Reports(facts, env, b.programs)
    ensures facts.tried && old(b.pending).Some? ==> facts.verdict == VerdictOf(env.first.snapshot, old(b.pending).value)
    ensures facts.tried && !(Settles(old(b.pending), facts) && !env.reconciled) ==>
              (|env.first.snapshot.blocks| == 3 && |env.first.snapshot.programs| == 3
               && (a.Some? <==> AcceptedTo(env.first.snapshot, b.programs, stations, 3)))
    ensures !facts.tried || (Settles(old(b.pending), facts) && !env.reconciled) ==> a.None?
    ensures a.Some? ==> AttemptOk(a.value, env, b.programs, stations) && Recorded(facts, a.value, env)
    ensures a.None? ==> facts.planned.Unplannable? && outcome.NotAttempted?
    ensures a.None? && old(b.pending).None? ==> b.disk == old(b.disk)
    ensures Sends(a, facts, env.write, old(c.store), old(c.sent), c.store, c.sent)
    ensures (b.pending, DurableJournal(b.disk))
            == Journals(old(b.pending), DurableJournal(old(b.disk)), facts, EntryOf(a))
    ensures a.Some? ==> outcome == OutcomeOf(facts, if outcome.Restored? then outcome.verified else a.value.before)
    ensures facts.sent > 0 && !outcome.Restored? ==> Journaled(b, a.value)
    ensures outcome.Restored? ==> env.write.readback == Read(outcome.verified)
    ensures outcome.Restored? ==> b.snapshot == Some(outcome.verified) && b.disk == Some(b.Image())
    ensures outcome.NotMutated? && env.aborted ==> b.disk == Some(b.Image())
  {
    hide IsSnapshot, Digestible, Sends, Revision, Recorded, AcceptedTo, OutcomeOf, Proceeded, VerdictOf, AttemptOk,
         Journaled, JournalOf, ProgramBackupStore.Valid, ProgramBackupStore.Anchored;
    outcome, a := NotAttempted, None;
    facts := Facts(env.admitted && b.programs != map[] && env.first.Read?, Diverged, env.reconciled, Unplannable,
                   env.begun, Open, 0, env.aborted, env.finished);
    NothingSends(facts, env.write, c.store, c.sent);
    if !env.admitted || b.programs == map[] || env.first.Broken? {
      return;
    }
    var raised;
    raised, facts := Resume(b, env.first.snapshot, env.reconciled, facts);
    NothingSends(facts, env.write, c.store, c.sent);
    NothingProceeds(b.pending, DurableJournal(b.disk), facts);
    if raised {
      return;
    }
    outcome, a, facts := Proceed(b, c, stations, env, env.first.snapshot, facts);
  }

  /** A pending journal is first held against the fresh read. */
  method Resume(b: ProgramBackupStore, before: Snapshot, saved: bool, ghost so: Facts) returns (raised: bool, ghost facts: Facts)
    requires b.Valid() && b.Anchored() && IsSnapshot(before, before.frames) && Digestible(before)
    requires so.tried && so.reconciled == saved
    modifies b
    ensures b.Valid() && b.Anchored() && b.programs == old(b.programs)
    ensures facts == so.(verdict := facts.verdict) && (old(b.pending).None? ==> b.disk == old(b.disk))
    ensures old(b.pending).Some? ==> facts.verdict == VerdictOf(before, old(b.pending).value)
    ensures raised == (Settles(old(b.pending), facts) && !saved)
    ensures (b.pending, DurableJournal(b.disk)) == Reread(old(b.pending), DurableJournal(old(b.disk)), facts)
  {
    hide IsSnapshot, Digestible, VerdictOf, ProgramBackupStore.Valid, ProgramBackupStore.Anchored;
    raised, facts := false, so;
    if b.pending.Some? {
      facts := facts.(verdict := VerdictOf(before, b.pending.value));
      var answer := b.Reconcile(before, saved);
      raised := answer.Raised?;
    }
  }

  /** Planning against the snapshot just read, and what follows. */
  method Proceed(b: ProgramBackupStore, c: Controller, stations: int, env: RestoreEnv, before: Snapshot, ghost so: Facts)
    returns (outcome: RestoreOutcome, ghost a: Option<Attempt>, ghost facts: Facts)
    requires b.Valid() && b.Anchored() && RestoreEnvOk(env) && env.first == Read(before)
    requires so.begun == env.begun && so.aborted == env.aborted && so.finished == env.finished
    modifies b, c
    ensures b.Valid() && b.Anchored() && b.programs == old(b.programs)
    ensures facts == so.(planned := facts.planned, ending := facts.ending, sent := facts.sent)
    ensures |before.blocks| == 3 && |before.programs| == 3 && (a.Some? <==> AcceptedTo(before, b.programs, stations, 3))
    ensures a.Some? ==> AttemptOk(a.value, env, b.programs, stations) && Recorded(facts, a.value, env)
    ensures a.None? ==> facts.planned.Unplannable? && outcome.NotAttempted? && b.disk == old(b.disk)
    ensures Sends(a, facts, env.write, old(c.store), old(c.sent), c.store, c.sent)
    ensures (b.pending, DurableJournal(b.disk))
            == Proceeded((old(b.pending), DurableJournal(old(b.disk))), facts, EntryOf(a))
    ensures a.Some? ==> outcome == OutcomeOf(facts, if outcome.Restored? then outcome.verified else a.value.before)
    ensures facts.sent > 0 && !outcome.Restored? ==> Journaled(b, a.value)
    ensures outcome.Restored? ==> env.write.readback == Read(outcome.verified)
    ensures outcome.Restored? ==> b.snapshot == Some(outcome.verified) && b.disk == Some(b.Image())
    ensures outcome.NotMutated? && env.aborted ==> b.disk == Some(b.Image())
  {
    hide IsSnapshot, Digestible, PlanYields, Delivered, Revision, OneShot, Recorded, AcceptedTo, Committed, Journaled,
         ProgramBackupStore.Anchored;
    outcome, a, facts := NotAttempted, None, so.(planned := Unplannable, sent := 0);
    var plan := Plan(before, b.programs, stations);
    if plan.Err? {
      return;
    }
    var frames, expected := plan.value.0, plan.value.1;
    PlannedDigest(before, b.programs, stations, frames, expected);
    a := Some(Attempt(before, expected, frames));
    NoneDelivered(c.store, frames, env.write.deliveries);
    if frames == [] {
      var raised := b.FinishRestore(before, env.finished);
      outcome := Unneeded;
      NothingSent(frames, expected, Revision(before), env.write);
      facts := facts.(planned := NothingToDo);
      NothingRecorded(facts, a.value, env);
      return;
    }
    outcome, facts := Commit(b, c, Attempt(before, expected, frames), env, facts.(planned := FramesToSend));
  }

  lemma NothingSends(f: Facts, env: WriteEnv, d: Store, sent: seq<Frame>)
    requires f.sent == 0
    ensures Sends(None, f, env, d, sent, d, sent)
  {
  }

  lemma NothingProceeds(memory: Option<Journal>, disk: Option<Journal>, f: Facts)
    requires f.planned.Unplannable?
    ensures Proceeded((memory, disk), f, None) == (memory, disk)
  {
  }

  lemma NothingRecorded(f: Facts, a: Attempt, env: RestoreEnv)
    requires Digestible(a.expected) && Digestible(a.before) && a.frames == [] && f.planned.NothingToDo? && f.sent == 0
    ensures Recorded(f, a, env)
  {
  }

  function EntryOf(a: Option<Attempt>): Option<Journal>
    requires a.Some? ==> Digestible(a.value.before) && Digestible(a.value.expected)
  {
    if a.Some? then Some(JournalOf(a.value.before, a.value.expected)) else None
  }

  /** Journal, write, and settle the journal: the part of an attempt that may touch the controller. */
  method Commit(b: ProgramBackupStore, c: Controller, a: Attempt, env: RestoreEnv, ghost so: Facts)
    returns (outcome: RestoreOutcome, ghost facts: Facts)
    requires b.Valid() && b.Anchored() && RestoreEnvOk(env)
    requires a.frames != [] && Digestible(a.before) && Digestible(a.expected)
    requires so.planned.FramesToSend? && so.begun == env.begun && so.aborted == env.aborted && so.finished == env.finished
    modifies b, c
    ensures b.Valid() && b.Anchored() && b.programs == old(b.programs)
    ensures facts == so.(ending := facts.ending, sent := facts.sent) && Recorded(facts, a, env)
    ensures OneShot(facts.sent, a.frames, a.expected, Revision(a.before), env.write)
    ensures c.sent == old(c.sent) + a.frames[..facts.sent]
    ensures c.store == Delivered(old(c.store), a.frames[..facts.sent], env.write.deliveries)
    ensures facts.sent == 0 ==> c.store == old(c.store)
    ensures (b.pending, DurableJournal(b.disk))
            == Committed(DurableJournal(old(b.disk)), facts, Some(JournalOf(a.before, a.expected)))
    ensures outcome == OutcomeOf(facts, if outcome.Restored? then outcome.verified else a.before)
    ensures facts.sent > 0 && !outcome.Restored? ==> Journaled(b, a)
    ensures outcome.Restored? ==> facts.sent == |a.frames| && env.write.readback == Read(outcome.verified)
    ensures outcome.Restored? ==> b.snapshot == Some(outcome.verified) && b.disk == Some(b.Image())
    ensures outcome.NotMutated? && env.aborted ==> b.disk == Some(b.Image())
  {
    hide IsSnapshot, Digestible, Delivered, Revision, Confirmed, Opened, RefusedUpfront;
    facts := so.(ending := Open, sent := 0);
    NoneDelivered(c.store, a.frames, env.write.deliveries);
    NothingSent(a.frames, a.expected, Revision(a.before), env.write);
    var raised := b.BeginRestore(a.before, a.expected, env.begun);
    if raised {
      outcome := NotJournaled;
      return;
    }
    ghost var n;
    var written;
    written, n := WriteProgramFrames(c, a.frames, a.expected, Revision(a.before), env.write);
    facts := facts.(sent := n);
    match written {
      case Verified(actual) =>
        facts := facts.(ending := AsPlanned);
        raised := b.FinishRestore(actual, env.finished);
        outcome := if raised then Unconfirmed else Restored(actual);
      case Refused =>
        facts := facts.(ending := BeforeFirst);
        raised := b.AbortRestore(env.aborted);
        outcome := NotMutated;
      case _ => outcome := Unconfirmed;
    }
  }

  /** When the read-back was faithful, a restore reported as done left the controller in exactly the planned
      state, whatever the acknowledgements were worth. */
  lemma RestoredMeansRestored(a: Attempt, env: RestoreEnv, backup: Backup, stations: int, verified: Snapshot,
                              d: Store, tops: seq<int>, now: Store, tops': seq<int>)
    requires AttemptOk(a, env, backup, stations) && RestoreEnvOk(env) && env.write.readback == Read(verified)
    requires Confirmed(a.frames, a.expected, Revision(a.before), env.write)
    requires StoreOk(d) && TopsOk(tops) && Reads(d, tops, a.before.frames)
    requires StoreOk(now) && TopsOk(tops') && tops'[3..] == tops[3..] && Reads(now, tops', verified.frames)
    ensures now == ApplyWrites(d, a.frames)
  {
    hide IsSnapshot, Digestible, PlanYields, Reads, Describes, StoreOk, Revision;
    ReadDescribes(d, tops, a.before.frames, a.before);
    ReadDescribes(now, tops', verified.frames, verified);
    PlanMovesStore(a.before, d, tops, backup, stations, 3, a.frames, a.expected);
    RevisionOfStore(verified, now, tops', a.expected, ApplyWrites(d, a.frames), tops);
  }

  lemma NothingSent(frames: seq<Frame>, expected: Snapshot, beforeRevision: Frame, env: WriteEnv)
    ensures OneShot(0, frames, expected, beforeRevision, env)
  {
  }
}
