/** The protected program backup and its restore journal: `program_backup.py`. */
module ProgramBackup {
  import opened Options
  import opened Bytes
  import opened Protocol
  import opened Snapshots
  import opened Patching
  import opened PatchMeaning
  import opened Editor
  import opened Replay
  import opened Restore
  import opened DateDrift
  import Schedule

  /** An intended restore: where the controller was, where it should end. */
  datatype Journal = Journal(
    beforeRevision: Frame, expectedRevision: Frame, beforeFrames: seq<Frame>, expectedFrames: seq<Frame>)

  /** What `_async_save` makes durable, all three parts together. */
  datatype Disk = Disk(programs: Backup, frames: seq<Frame>, pending: Option<Journal>)

  function JournalOf(before: Snapshot, expected: Snapshot): Journal
    requires Digestible(before) && Digestible(expected)
  {
    Journal(Revision(before), Revision(expected), before.frames, expected.frames)
  }

  predicate Scheduled(p: Program) {
    (exists k :: 0 <= k < |p.startTimes| && p.startTimes[k].Some?) && exists k :: 0 <= k < |p.durations| && p.durations[k] > 0
  }

  /** Scheduled is what can start and water at all: some slot is enabled and some station has a duration. */
  lemma ScheduledMeans(p: Program)
    ensures Scheduled(p) <==> Schedule.Enabled(p.startTimes) != [] && exists seconds :: seconds in p.durations && seconds > 0
  {
    var enabled := Schedule.Enabled(p.startTimes);
    hide Schedule.Enabled;
    if enabled != [] {
      assert enabled[0] in enabled && Some(enabled[0]) in p.startTimes;
      var k :| 0 <= k < |p.startTimes| && p.startTimes[k] == Some(enabled[0]);
    }
    if k :| 0 <= k < |p.startTimes| && p.startTimes[k].Some? {
      assert Some(p.startTimes[k].value) == p.startTimes[k] && p.startTimes[k].value in enabled;
    }
    if j :| 0 <= j < |p.durations| && p.durations[j] > 0 { assert p.durations[j] in p.durations; }
  }

  /** `_has_scheduled_program`. */
  predicate HasScheduledProgram(programs: Backup) {
    exists i :: i in programs && Scheduled(programs[i])
  }

  /** `raw` is what parsing `frames` gives. */
  ghost predicate Parses(frames: seq<Frame>, raw: Option<Snapshot>) {
    && (raw.Some? ==> IsSnapshot(raw.value, frames))
    && (raw.None? ==> forall s :: !IsSnapshot(s, frames))
  }

  method Parse(frames: seq<Frame>) returns (raw: Option<Snapshot>)
    ensures Parses(frames, raw)
  {
    hide IsSnapshot;
    if frames == [] {
      EmptyIsNoSnapshot();
      return None;
    }
    var parsed := FromFrames(frames);
    raw := if parsed.Ok? then Some(parsed.value) else None;
  }

  lemma EmptyIsNoSnapshot()
    ensures forall s :: !IsSnapshot(s, [])
  {
    forall s | IsSnapshot(s, [])
      ensures false
    {
      assert HasBlock(Content([]), 0, s.blocks[0]);
      var t :| IsBlock(Content([]), 0, s.blocks[0], t);
      SlotChunk(Content([]), 0, s.blocks[0], t, 0);
    }
  }

  // ---- the load-time repair ------------------------------------------------------

  function RepairChanges(p: Program): seq<Change> {
    BackupChanges(p, |p.durations|)
  }

  predicate Differs(s: Snapshot, backup: Backup, i: int) {
    i in backup && 0 <= i < |s.programs| && s.programs[i] != backup[i]
  }

  /** `_snapshot_programs_differ`. */
  predicate ProgramsDiffer(s: Snapshot, backup: Backup) {
    exists i :: i in backup && Differs(s, backup, i)
  }

  /** Slot `i` cannot be brought back to the backup. */
  ghost predicate Irreparable(s: Snapshot, backup: Backup, i: int)
    requires |s.blocks| == 3 && |s.programs| == 3
  {
    Differs(s, backup, i) && PatchError(s, i, RepairChanges(backup[i]), |backup[i].durations|).Some?
  }

  /** A differing slot was patched to the backup; any other is untouched byte for byte. */
  ghost predicate SlotRepaired(s: Snapshot, backup: Backup, r: Snapshot, i: int) {
    if Differs(s, backup, i)
    then PatchedAtSlot(s, i, RepairChanges(backup[i]), r)
    else SameSlot(s, r, i)
  }

  ghost predicate PatchedAtSlot(s: Snapshot, i: int, cs: seq<Change>, r: Snapshot) {
    && |s.blocks| == 3 && |r.blocks| == 3 && 0 <= i < 3 && StandardBlock(s.blocks[i]) && AllOk(cs, 12)
    && r.blocks[i] == PatchedBlock(s.blocks[i], cs)
  }

  ghost predicate Repaired(s: Snapshot, backup: Backup, r: Snapshot) {
    IsSnapshot(r, r.frames) && r.extras == s.extras && forall i :: 0 <= i < 3 ==> SlotRepaired(s, backup, r, i)
  }

  /** The repair loop of `async_load`; `None` when some differing slot cannot be patched. */
  method Repair(s: Snapshot, backup: Backup) returns (r: Option<Snapshot>)
    requires IsSnapshot(s, s.frames) && BackupOk(backup)
    ensures |s.blocks| == 3 && |s.programs| == 3
    ensures r.Some? ==> Repaired(s, backup, r.value)
    ensures r.None? <==> exists i :: 0 <= i < 3 && Irreparable(s, backup, i)
  {
    SnapshotSizes(s);
    hide IsSnapshot, SlotRepaired, SameSlot, Irreparable, RepairedTo, Repaired;
    var repaired := s;
    NoneRepaired(s, backup);
    for i := 0 to 3
      invariant RepairedTo(s, backup, repaired, i)
    {
      NextToRepair(s, backup, repaired, i);
      var step := RepairSlot(s, backup, repaired, i);
      if step.None? {
        return None;
      }
      SlotsKept(s, backup, repaired, step.value, i);
      repaired := step.value;
    }
    AllRepaired(s, backup, repaired);
    r := Some(repaired);
  }

  /** The slots below `i` are repaired, the others as they were. */
  ghost predicate RepairedTo(s: Snapshot, backup: Backup, m: Snapshot, i: int)
    requires |s.blocks| == 3 && |s.programs| == 3
  {
    && IsSnapshot(m, m.frames) && m.extras == s.extras
    && (forall j :: i <= j < 3 ==> SameSlot(s, m, j))
    && forall j :: 0 <= j < i ==> SlotRepaired(s, backup, m, j) && !Irreparable(s, backup, j)
  }

  lemma NoneRepaired(s: Snapshot, backup: Backup)
    requires |s.blocks| == 3 && |s.programs| == 3 && IsSnapshot(s, s.frames)
    ensures RepairedTo(s, backup, s, 0)
  {
    hide IsSnapshot;
    SelfSame(s);
  }

  lemma NextToRepair(s: Snapshot, backup: Backup, m: Snapshot, i: int)
    requires |s.blocks| == 3 && |s.programs| == 3 && RepairedTo(s, backup, m, i) && 0 <= i < 3
    ensures IsSnapshot(m, m.frames) && SameSlot(s, m, i)
  {
    hide IsSnapshot, SameSlot;
  }

  lemma AllRepaired(s: Snapshot, backup: Backup, m: Snapshot)
    requires |s.blocks| == 3 && |s.programs| == 3 && RepairedTo(s, backup, m, 3)
    ensures Repaired(s, backup, m) && forall i :: 0 <= i < 3 ==> !Irreparable(s, backup, i)
  {
    hide IsSnapshot, SameSlot, SlotRepaired, Irreparable;
  }

  method RepairSlot(s: Snapshot, backup: Backup, m: Snapshot, i: int) returns (r: Option<Snapshot>)
    requires IsSnapshot(m, m.frames) && 0 <= i < 3 && SameSlot(s, m, i)
    ensures r.None? <==> Irreparable(s, backup, i)
    ensures r.Some? ==> IsSnapshot(r.value, r.value.frames) && SlotRepaired(s, backup, r.value, i)
    ensures r.Some? ==> r.value.extras == s.extras && forall j :: j != i ==> SameSlot(m, r.value, j)
  {
    hide IsSnapshot, PatchError, PatchYields, RepairChanges, BackupChanges, PatchedBlock, StandardBlock, AllOk;
    if i !in backup || m.programs[i] == backup[i] {
      return Some(m);
    }
    var cs := RepairChanges(backup[i]);
    RefusalLocal(s, m, i, cs, |backup[i].durations|);
    var step := Patch(m, i, cs, |backup[i].durations|);
    if step.Err? {
      return None;
    }
    YieldsSnapshot(m, i, cs, |backup[i].durations|, step.value.0, step.value.1);
    r := Some(step.value.1);
  }

  lemma SelfSame(s: Snapshot)
    requires |s.blocks| == 3 && |s.programs| == 3
    ensures forall j :: SameSlot(s, s, j)
  {
  }

  lemma SlotsKept(s: Snapshot, backup: Backup, m: Snapshot, r: Snapshot, i: int)
    requires 0 <= i < 3 && |s.blocks| == 3 && |s.programs| == 3 && RepairedTo(s, backup, m, i)
    requires IsSnapshot(r, r.frames) && r.extras == s.extras && forall j :: j != i ==> SameSlot(m, r, j)
    requires SlotRepaired(s, backup, r, i) && !Irreparable(s, backup, i)
    ensures RepairedTo(s, backup, r, i + 1)
  {
    hide RepairChanges, PatchedBlock, StandardBlock, AllOk, IsSnapshot, Irreparable;
    forall j | 0 <= j < 3 && j != i
      ensures SameSlot(s, m, j) ==> SameSlot(s, r, j)
      ensures SlotRepaired(s, backup, m, j) ==> SlotRepaired(s, backup, r, j)
    {
      assert SameSlot(m, r, j);
    }
  }

  lemma DifferingEntry(s: Snapshot, backup: Backup)
    ensures ProgramsDiffer(s, backup) ==> backup != map[]
  {
  }

  lemma RepairedIsSnapshot(s: Snapshot, backup: Backup, r: Snapshot)
    requires Repaired(s, backup, r)
    ensures IsSnapshot(r, r.frames)
  {
  }

  /** No restore is pending, some slot differs from the backup, and every such slot can be patched. */
  ghost predicate RepairDue(raw: Option<Snapshot>, backup: Backup, pending: Option<Journal>) {
    && pending.None? && raw.Some? && |raw.value.blocks| == 3 && |raw.value.programs| == 3
    && ProgramsDiffer(raw.value, backup)
    && forall i :: 0 <= i < 3 ==> !Irreparable(raw.value, backup, i)
  }

  /** A repaired slot decodes to the protected program on its nine writable fields, 31-byte names permitting. */
  lemma RepairMeaning(s: Snapshot, backup: Backup, r: Snapshot, i: int)
    requires IsSnapshot(s, s.frames) && Repaired(s, backup, r) && 0 <= i < 3 && Differs(s, backup, i)
    ensures |s.blocks| == |s.programs| == |r.programs| == 3 && StandardBlock(s.blocks[i])
    ensures Matches(r.programs[i], backup[i], s.programs[i], |backup[i].durations|) <==>
              NameFits(Name(backup[i].name), s.blocks[i])
  {
    hide DecodeBlock, PatchedBlock, Matches, HasBlock, IsExtras, StandardBlock, NameFits, AllOk, BackupChanges;
    assert SlotRepaired(s, backup, r, i);
    BackupRestored(s.blocks[i], backup[i], |backup[i].durations|);
  }

  // ---- the verdict of a reconciliation ----------------------------------------------

  datatype Verdict = Confirmed | Unchanged | Diverged

  ghost predicate Drifted(s: Snapshot, j: Journal) {
    exists e :: IsSnapshot(e, j.expectedFrames) && DiffersOnlyByPeriodStartDate(s, e)
  }

  ghost function VerdictOf(s: Snapshot, j: Journal): Verdict
    requires Digestible(s)
  {
    if Revision(s) == j.expectedRevision then Confirmed
    else if Revision(s) == j.beforeRevision then Unchanged
    else if Drifted(s, j) then Confirmed
    else Diverged
  }

  method DriftedFrom(s: Snapshot, j: Journal) returns (drifted: bool)
    ensures drifted <==> Drifted(s, j)
  {
    hide IsSnapshot;
    var expected := Parse(j.expectedFrames);
    drifted := expected.Some? && DiffersOnlyByPeriodStartDate(s, expected.value);
    if drifted { assert IsSnapshot(expected.value, j.expectedFrames); }
    if expected.Some? { SameFrames(expected.value, j.expectedFrames); }
    forall e | IsSnapshot(e, j.expectedFrames) && DiffersOnlyByPeriodStartDate(s, e)
      ensures drifted
    {
      SameFrames(e, j.expectedFrames);
    }
  }

  /** The decoded slots A, B and C. */
  function ProgramsOf(s: Snapshot): (programs: Backup)
    ensures |s.programs| == 3 ==> programs.Keys == {0, 1, 2} && forall i :: 0 <= i < 3 ==> programs[i] == s.programs[i]
    ensures |s.programs| != 3 ==> programs == map[]
  {
    if |s.programs| == 3 then map[0 := s.programs[0], 1 := s.programs[1], 2 := s.programs[2]] else map[]
  }

  /** The frames are a complete response with something scheduled. */
  ghost predicate Promotable(frames: seq<Frame>) {
    exists s :: IsSnapshot(s, frames) && HasScheduledProgram(ProgramsOf(s))
  }

  lemma PromotableParse(s: Snapshot, frames: seq<Frame>)
    requires IsSnapshot(s, frames)
    ensures Promotable(frames) <==> HasScheduledProgram(ProgramsOf(s))
  {
    hide IsSnapshot, HasScheduledProgram;
    if Promotable(frames) {
      var e :| IsSnapshot(e, frames) && HasScheduledProgram(ProgramsOf(e));
      SnapshotDependsOnContent(e, frames, s, frames);
    }
  }

  // ---- the store ----------------------------------------------------------------------

  datatype Answer = Answered(value: bool) | Raised

  /** `disk` is the durable storage; `saved` arguments say whether a durable save succeeds. */
  class ProgramBackupStore {
    var programs: Backup
    var snapshot: Option<Snapshot>
    var pending: Option<Journal>
    var disk: Option<Disk>

    ghost predicate Valid()
      reads this
    {
      && BackupOk(programs)
      && (snapshot.Some? ==> IsSnapshot(snapshot.value, snapshot.value.frames))
      && (disk.Some? ==> BackupOk(disk.value.programs))
    }

    /** A durable backup is the backup in use. */
    ghost predicate Anchored()
      reads this
    {
      disk.Some? && disk.value.programs != map[] ==> programs == disk.value.programs
    }

    ghost function State(): Held
      reads this
    {
      Held(programs, snapshot, pending, disk)
    }

    function Image(): Disk
      reads this
    {
      Disk(programs, if snapshot.Some? then snapshot.value.frames else [], pending)
    }

    constructor (durable: Option<Disk>)
      requires durable.Some? ==> BackupOk(durable.value.programs)
      ensures Valid() && programs == map[] && snapshot == None && pending == None && disk == durable
    {
      programs, snapshot, pending, disk := map[], None, None, durable;
    }

    method Save(saved: bool) returns (raised: bool)
      modifies this`disk
      ensures raised == !saved
      ensures disk == if saved then Some(Image()) else old(disk)
    {
      if saved {
        disk := Some(Image());
      }
      raised := !saved;
    }

    /** `async_load`: the durable backup and journal come back as they were; the raw snapshot too, or
        repaired to the backup where it differs, all slots or none. */
    method Load(saved: bool) returns (raised: bool, ghost raw: Option<Snapshot>)
      requires Valid() && programs == map[] && snapshot == None && pending == None
      modifies this
      ensures Valid() && Anchored()
      ensures old(disk).None? ==> programs == map[] && snapshot == None && pending == None && disk == None && !raised
      ensures old(disk).Some? ==> programs == old(disk).value.programs && pending == old(disk).value.pending
      ensures old(disk).Some? ==> Parses(old(disk).value.frames, raw)
      ensures old(disk).Some? && RepairDue(raw, programs, pending) ==>
                (snapshot.Some? && Repaired(raw.value, programs, snapshot.value)
                 && raised == !saved && disk == if saved then Some(Image()) else old(disk))
      ensures old(disk).Some? && !RepairDue(raw, programs, pending) ==> snapshot == raw && disk == old(disk) && !raised
    {
      hide IsSnapshot, Irreparable, Repaired, ProgramsDiffer;
      raised, raw := false, None;
      if disk.None? {
        return;
      }
      var data := disk.value;
      programs, pending := data.programs, data.pending;
      snapshot := Parse(data.frames);
      raw := snapshot;
      if snapshot.Some? {
        SameFrames(snapshot.value, data.frames);
        SnapshotSizes(snapshot.value);
        DifferingEntry(snapshot.value, programs);
      }
      if pending.None? && snapshot.Some? && programs != map[] && ProgramsDiffer(snapshot.value, programs) {
        var repaired := Repair(snapshot.value, programs);
        if repaired.Some? {
          RepairedIsSnapshot(snapshot.value, programs, repaired.value);
          snapshot := repaired;
          raised := Save(saved);
        }
      }
    }

    /** `async_save_if_non_empty`: only the first useful observation is kept. */
    method SaveIfNonEmpty(observed: Backup, saved: bool) returns (r: Answer)
      requires Valid() && Anchored() && BackupOk(observed)
      modifies this
      ensures Valid() && Anchored() && snapshot == old(snapshot) && pending == old(pending)
      ensures var kept := old(programs) == map[] && HasScheduledProgram(observed);
              && programs == (if kept then observed else old(programs))
              && disk == (if kept && saved then Some(Image()) else old(disk))
              && r == (if kept && !saved then Raised else Answered(kept))
    {
      if programs != map[] || !HasScheduledProgram(observed) {
        return Answered(false);
      }
      programs := observed;
      var raised := Save(saved);
      r := if raised then Raised else Answered(true);
    }

    /** `async_replace`: a complete, scheduled snapshot replaces the backup, durably or not at all. */
    method Replace(candidate: Snapshot, saved: bool) returns (raised: bool)
      requires Valid() && Anchored()
      modifies this
      ensures Valid() && Anchored() && pending == old(pending)
      ensures raised ==> programs == old(programs) && snapshot == old(snapshot) && disk == old(disk)
      ensures !raised <==> old(pending).None? && saved && Promotable(candidate.frames)
      ensures !raised ==> disk == Some(Image()) && HasScheduledProgram(programs)
      ensures !raised ==> snapshot.Some? && IsSnapshot(snapshot.value, candidate.frames)
      ensures !raised ==> programs == ProgramsOf(snapshot.value)
    {
      hide IsSnapshot;
      if pending.Some? {
        return true;
      }
      var parsed := FromFrames(candidate.frames);
      if parsed.Err? {
        return true;
      }
      SameFrames(parsed.value, candidate.frames);
      SnapshotSizes(parsed.value);
      PromotableParse(parsed.value, candidate.frames);
      var replacement := ProgramsOf(parsed.value);
      if !HasScheduledProgram(replacement) {
        return true;
      }
      var oldPrograms, oldSnapshot := programs, snapshot;
      programs, snapshot := replacement, Some(parsed.value);
      raised := Save(saved);
      if raised {
        programs, snapshot := oldPrograms, oldSnapshot;
      }
    }

    /** `async_begin_restore`. */
    method BeginRestore(before: Snapshot, expected: Snapshot, saved: bool) returns (raised: bool)
      requires Valid() && Anchored() && Digestible(before) && Digestible(expected)
      modifies this
      ensures Valid() && Anchored() && programs == old(programs) && snapshot == old(snapshot)
      ensures pending == Some(JournalOf(before, expected))
      ensures raised == !saved && disk == if saved then Some(Image()) else old(disk)
    {
      pending := Some(JournalOf(before, expected));
      raised := Save(saved);
    }

    /** `async_abort_restore`. */
    method AbortRestore(saved: bool) returns (raised: bool)
      requires Valid() && Anchored()
      modifies this
      ensures Valid() && Anchored() && programs == old(programs) && snapshot == old(snapshot) && pending == None
      ensures raised == !saved && disk == if saved then Some(Image()) else old(disk)
    {
      pending := None;
      raised := Save(saved);
    }

    /** `async_finish_restore`. */
    method FinishRestore(verified: Snapshot, saved: bool) returns (raised: bool)
      requires Valid() && Anchored() && IsSnapshot(verified, verified.frames)
      modifies this
      ensures Valid() && Anchored() && programs == old(programs) && snapshot == Some(verified) && pending == None
      ensures raised == !saved && disk == if saved then Some(Image()) else old(disk)
    {
      snapshot, pending := Some(verified), None;
      raised := Save(saved);
    }

    /** `async_reconcile`: the journal goes only for a known outcome of the read `observed`. */
    method Reconcile(observed: Snapshot, saved: bool) returns (r: Answer)
      requires Valid() && Anchored() && IsSnapshot(observed, observed.frames) && Digestible(observed)
      modifies this
      ensures Valid() && Anchored() && programs == old(programs)
      ensures old(pending).None? || VerdictOf(observed, old(pending).value).Diverged? ==>
                snapshot == old(snapshot) && pending == old(pending) && disk == old(disk)
      ensures old(pending).None? ==> r == Answered(true)
      ensures old(pending).Some? && VerdictOf(observed, old(pending).value).Diverged? ==> r == Answered(false)
      ensures old(pending).Some? && !VerdictOf(observed, old(pending).value).Diverged? ==>
                (pending == None && disk == (if saved then Some(Image()) else old(disk))
                 && r == if saved then Answered(true) else Raised)
      ensures old(pending).Some? && VerdictOf(observed, old(pending).value).Confirmed? ==> snapshot == Some(observed)
      ensures old(pending).Some? && VerdictOf(observed, old(pending).value).Unchanged? ==>
                if old(snapshot).Some? then snapshot == old(snapshot) else Parses(old(pending).value.expectedFrames, snapshot)
    {
      hide IsSnapshot, Digestible, Drifted;
      if pending.None? {
        return Answered(true);
      }
      var journal := pending.value;
      if Revision(observed) == journal.expectedRevision {
        snapshot, pending := Some(observed), None;
      } else if Revision(observed) != journal.beforeRevision {
        var drifted := DriftedFrom(observed, journal);
        if !drifted {
          return Answered(false);
        }
        snapshot, pending := Some(observed), None;
      } else {
        if snapshot.None? {
          snapshot := Parse(journal.expectedFrames);
          if snapshot.Some? { SameFrames(snapshot.value, journal.expectedFrames); }
        }
        pending := None;
      }
      var raised := Save(saved);
      r := if raised then Raised else Answered(true);
    }
  }

  // ---- whole runs ------------------------------------------------------------------------

  /** Everything the integration does with a store besides an explicit replacement. */
  datatype Op =
    | PollSave(programs: Backup)
    | Begin(before: Snapshot, expected: Snapshot)
    | Abort
    | Finish(verified: Snapshot)
    | Reconciliation(observed: Snapshot)
    | Restart

  ghost predicate OpOk(op: Op) {
    match op
    case PollSave(observed) => BackupOk(observed)
    case Begin(before, expected) => Digestible(before) && Digestible(expected)
    case Finish(verified) => IsSnapshot(verified, verified.frames)
    case Reconciliation(observed) => IsSnapshot(observed, observed.frames) && Digestible(observed)
    case _ => true
  }

  /** What a store holds, in memory and on disk. */
  datatype Held = Held(programs: Backup, snapshot: Option<Snapshot>, pending: Option<Journal>, disk: Option<Disk>) {
    /** Memory is `m` now, and it is on disk if the save succeeded. */
    predicate SavedAs(m: Held, saved: bool, now: Held) {
      && now == m.(disk := now.disk)
      && now.disk == if saved then Some(Disk(m.programs, if m.snapshot.Some? then m.snapshot.value.frames else [], m.pending))
                     else disk
    }
  }

  /** A read is held against the pending journal. */
  ghost predicate Settled(was: Held, observed: Snapshot, saved: bool, now: Held)
    requires was.pending.Some? && Digestible(observed)
  {
    match VerdictOf(observed, was.pending.value)
    case Diverged => now == was
    case Confirmed => was.SavedAs(was.(snapshot := Some(observed), pending := None), saved, now)
    case Unchanged =>
      && was.SavedAs(was.(snapshot := now.snapshot, pending := None), saved, now)
      && if was.snapshot.Some? then now.snapshot == was.snapshot
         else Parses(was.pending.value.expectedFrames, now.snapshot)
  }

  /** What a new process makes of the disk. */
  ghost predicate Reloaded(was: Held, saved: bool, now: Held, raw: Option<Snapshot>) {
    if was.disk.None? then now == Held(map[], None, None, None)
    else
      && Parses(was.disk.value.frames, raw)
      && now.programs == was.disk.value.programs && now.pending == was.disk.value.pending
      && if RepairDue(raw, now.programs, now.pending) then
           now.snapshot.Some? && Repaired(raw.value, now.programs, now.snapshot.value)
           && was.SavedAs(now.(disk := was.disk), saved, now)
         else now.snapshot == raw && now.disk == was.disk
  }

  /** One operation leads from `was` to `now`. */
  ghost predicate Moves(was: Held, op: Op, saved: bool, now: Held)
    requires OpOk(op)
  {
    match op
    case PollSave(observed) =>
      if was.programs == map[] && HasScheduledProgram(observed) then was.SavedAs(was.(programs := observed), saved, now)
      else now == was
    case Begin(before, expected) => was.SavedAs(was.(pending := Some(JournalOf(before, expected))), saved, now)
    case Abort => was.SavedAs(was.(pending := None), saved, now)
    case Finish(verified) => was.SavedAs(was.(snapshot := Some(verified), pending := None), saved, now)
    case Reconciliation(observed) => if was.pending.None? then now == was else Settled(was, observed, saved, now)
    case Restart => exists raw :: Reloaded(was, saved, now, raw)
  }

  /** The operations lead from `was` to `now`, one after the other. */
  ghost predicate Leads(was: Held, ops: seq<(Op, bool)>, now: Held)
    requires forall k :: 0 <= k < |ops| ==> OpOk(ops[k].0)
  {
    if ops == [] then now == was
    else
      var n := |ops| - 1;
      exists between :: Leads(was, ops[..n], between) && Moves(between, ops[n].0, ops[n].1, now)
  }

  /** One operation; its durable save succeeds or not as `saved` says. */
  method Step(b: ProgramBackupStore, op: Op, saved: bool) returns (b': ProgramBackupStore)
    requires b.Valid() && b.Anchored() && OpOk(op)
    modifies b
    ensures b'.Valid() && b'.Anchored() && (b' == b || fresh(b'))
    ensures Moves(old(b.State()), op, saved, b'.State())
    ensures old(b.disk).Some? && old(b.disk).value.programs != map[] ==>
              b'.programs == old(b.programs) && b'.disk.Some? && b'.disk.value.programs == old(b.disk).value.programs
  {
    hide IsSnapshot, Digestible, VerdictOf, Repaired, RepairDue, HasScheduledProgram, Parses, JournalOf;
    b' := b;
    match op {
      case PollSave(observed) => var _ := b.SaveIfNonEmpty(observed, saved);
      case Begin(before, expected) => var _ := b.BeginRestore(before, expected, saved);
      case Abort => var _ := b.AbortRestore(saved);
      case Finish(verified) => var _ := b.FinishRestore(verified, saved);
      case Reconciliation(snapshot) => var _ := b.Reconcile(snapshot, saved);
      case Restart =>
        b' := new ProgramBackupStore(b.disk);
        var _, raw := b'.Load(saved);
        assert Reloaded(old(b.State()), saved, b'.State(), raw);
    }
  }

  /** The operations lead where they lead; and once a backup is durable, no run of polls, restores, failed saves,
      reconciliations and restarts changes it, in memory or on disk. */
  method Run(b: ProgramBackupStore, ops: seq<(Op, bool)>) returns (b': ProgramBackupStore)
    requires b.Valid() && b.Anchored() && forall k :: 0 <= k < |ops| ==> OpOk(ops[k].0)
    modifies b
    ensures b'.Valid() && b'.Anchored() && Leads(old(b.State()), ops, b'.State())
    ensures old(b.disk).Some? && old(b.disk).value.programs != map[] ==>
              b'.programs == old(b.programs) && b'.disk.Some? && b'.disk.value.programs == old(b.programs)
  {
    hide IsSnapshot, Digestible, OpOk, Moves;
    b' := b;
    ghost var start := b.State();
    assert ops[..0] == [];
    for k := 0 to |ops|
      invariant b'.Valid() && b'.Anchored() && (b' == b || fresh(b'))
      invariant Leads(start, ops[..k], b'.State())
      invariant old(b.disk).Some? && old(b.disk).value.programs != map[] ==>
                  b'.programs == old(b.programs) && b'.disk.Some? && b'.disk.value.programs == old(b.programs)
    {
      ghost var between := b'.State();
      b' := Step(b', ops[k].0, ops[k].1);
      LeadsOn(start, ops, k, between, b'.State());
    }
    assert ops[..|ops|] == ops;
  }

  lemma LeadsOn(was: Held, ops: seq<(Op, bool)>, k: nat, between: Held, now: Held)
    requires k < |ops| && forall j :: 0 <= j < |ops| ==> OpOk(ops[j].0)
    requires Leads(was, ops[..k], between) && Moves(between, ops[k].0, ops[k].1, now)
    ensures Leads(was, ops[..k + 1], now)
  {
    hide Moves;
    assert ops[..k + 1][..k] == ops[..k];
  }
}
