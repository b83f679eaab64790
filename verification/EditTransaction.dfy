/** Editing one program: `set_irrigation_program` of `client_v2.py`, from normalisation to verified write. */
module EditTransaction {
  import opened Options
  import opened Bytes
  import opened Calendar
  import opened Protocol
  import opened Snapshots
  import opened Patching
  import opened PatchMeaning
  import opened Editor
  import opened EditorForm
  import opened Replay
  import opened Device
  import opened Restore
  import opened Packing
  import opened Reconciliation
  import opened RestoreTransaction
  import Schedule

  datatype EditOutcome = Written(verified: Snapshot) | AlreadyThere | NotSent | Doubtful

  /** The edit was accepted: what was read, what to send, what to expect. */
  ghost predicate Accepted(current: Snapshot, index: int, n: Program, stations: int, beforeRevision: Option<Frame>,
                           ws: seq<Frame>, expected: Snapshot) {
    && Digestible(current) && Digestible(expected) && (beforeRevision.Some? ==> Revision(current) == beforeRevision.value)
    && PatchYields(current, index, BackupChanges(n, stations), stations, ws, expected)
  }

  /** The program normalises, the first read came back with the editor's revision, and the patch is accepted. */
  ghost predicate Admissible(index: int, program: Program, today: Date, stations: int, beforeRevision: Option<Frame>,
                             first: Reading)
    requires ValidDate(today) && (program.periodStart.Some? ==> ValidDate(program.periodStart.value))
    requires ReadingOk(first) && (first.Read? ==> IsSnapshot(first.snapshot, first.snapshot.frames))
  {
    var n := NormalizeForWrite(program, today, 12);
    && n.Ok? && first.Read? && (beforeRevision.Some? ==> Revision(first.snapshot) == beforeRevision.value)
    && PatchError(first.snapshot, index, BackupChanges(n.value, stations), stations).None?
  }

  /** Nothing is sent unless the program normalises, the editor's revision is still current and the patch is
      accepted; the frames then leave one-shot, and the edit counts as written only when read back. */
  method SetIrrigationProgram(c: Controller, index: int, program: Program, today: Date, stations: int,
                              beforeRevision: Option<Frame>, first: Reading, env: WriteEnv)
    returns (outcome: EditOutcome, ghost plan: Option<(Snapshot, seq<Frame>, Snapshot)>, ghost k: nat)
    requires ValidDate(today) && (program.periodStart.Some? ==> ValidDate(program.periodStart.value))
    requires WriteEnvOk(env) && ReadingOk(first)
    requires first.Read? ==> IsSnapshot(first.snapshot, first.snapshot.frames)
    modifies c
    ensures plan.Some? <==> Admissible(index, program, today, stations, beforeRevision, first)
    ensures plan.None? ==> outcome.NotSent? && k == 0 && c.sent == old(c.sent) && c.store == old(c.store)
    ensures plan.Some? ==> NormalizeForWrite(program, today, 12).Ok? && first == Read(plan.value.0)
    ensures plan.Some? ==> Accepted(plan.value.0, index, NormalizeForWrite(program, today, 12).value, stations, beforeRevision,
                                    plan.value.1, plan.value.2)
    ensures plan.Some? ==> (OneShot(k, plan.value.1, plan.value.2, Revision(plan.value.0), env)
                            && c.sent == old(c.sent) + plan.value.1[..k]
                            && c.store == Delivered(old(c.store), plan.value.1[..k], env.deliveries))
    ensures outcome.AlreadyThere? <==> plan.Some? && plan.value.1 == []
    ensures outcome.Written? ==> plan.Some? && k == |plan.value.1| && env.readback == Read(outcome.verified)
    ensures outcome.Written? <==> plan.Some? && plan.value.1 != []
                                  && Confirmed(plan.value.1, plan.value.2, Revision(plan.value.0), env)
    ensures outcome.NotSent? ==> k == 0
    ensures outcome.NotSent? <==>
              plan.None? || (plan.value.1 != [] && RefusedUpfront(plan.value.1, plan.value.2, Revision(plan.value.0), env))
  {
    hide IsSnapshot, Digestible, Revision, Delivered, OneShot, Confirmed, PatchYields, PatchError, NormalizeForWrite, BackupChanges;
    plan, k := None, 0;
    var normalized := NormalizeForWrite(program, today, 12);
    if normalized.Err? || first.Broken? {
      return NotSent, None, 0;
    }
    var current := first.snapshot;
    if beforeRevision.Some? && Revision(current) != beforeRevision.value {
      return NotSent, None, 0;
    }
    var cs := BackupChanges(normalized.value, stations);
    var patched := Patch(current, index, cs, stations);
    if patched.Err? {
      return NotSent, None, 0;
    }
    var frames, expected := patched.value.0, patched.value.1;
    PatchedDigest(current, index, cs, stations, frames, expected);
    plan := Some((current, frames, expected));
    NoneDelivered(c.store, frames, env.deliveries);
    NothingSent(frames, expected, Revision(current), env);
    if Revision(expected) == Revision(current) {
      return AlreadyThere, plan, 0;
    }
    var written;
    written, k := WriteProgramFrames(c, frames, expected, Revision(current), env);
    outcome := match written
      case Verified(actual) => Written(actual)
      case Refused => NotSent
      case _ => Doubtful;
  }

  /** Opening the editor on a canonical program and saving it untouched: whatever is read meanwhile and whatever
      the link does, nothing is sent; the edit counts as already there exactly when the controller still has
      the snapshot that filled the form. */
  method EditUntouched(c: Controller, shown: Snapshot, index: int, width: int, today: nat, first: Reading, env: WriteEnv)
    returns (outcome: EditOutcome)
    requires IsSnapshot(shown, shown.frames) && Digestible(shown) && 0 <= index < 3 && 1 <= width <= 12
    requires EditorForm.Canonical(shown.blocks[index]) && KnownExtras(shown.extras)
    requires WriteEnvOk(env) && ReadingOk(first)
    requires first.Read? ==> IsSnapshot(first.snapshot, first.snapshot.frames)
    modifies c
    ensures c.sent == old(c.sent) && c.store == old(c.store)
    ensures outcome == if first.Read? && Revision(first.snapshot) == Revision(shown) then AlreadyThere else NotSent
  {
    hide IsSnapshot, Digestible, Revision, Delivered, Confirmed, PatchYields, PatchError, NormalizeForWrite, BackupChanges,
         EditorForm.Canonical, Submitted, Prefilled, PatchedBlock, DecodeBlock, KnownExtras, WriteEnvOk;
    SnapshotBlock(shown, index);
    var form, parsed, n, cs := SaveUntouched(shown.blocks[index], width, today);
    SubmittedDate(form, parsed, today);
    ghost var plan, k;
    ghost var store, sent := c.store, c.sent;
    outcome, plan, k := SetIrrigationProgram(c, index, parsed, DateOf(today), width, Some(Revision(shown)), first, env);
    if first.Read? && Revision(first.snapshot) == Revision(shown) {
      StillUntouched(shown, first.snapshot, index, width, today, form, parsed);
      if plan.Some? {
        OneYield(first.snapshot, index, cs, width, plan.value.1, plan.value.2);
        assert plan.value.1[..k] == [] && sent + [] == sent;
        NoneDelivered(store, [], env.deliveries);
        assert plan.value.1[..k] == [][..0];
      }
    }
  }

  /** A read with the revision of the snapshot that filled the form finds nothing to send either. */
  lemma StillUntouched(shown: Snapshot, s: Snapshot, i: int, width: int, today: nat, f: Form, parsed: Program)
    requires IsSnapshot(shown, shown.frames) && IsSnapshot(s, s.frames) && Digestible(shown) && Digestible(s)
    requires Revision(s) == Revision(shown) && 0 <= i < 3 && 1 <= width <= 12
    requires EditorForm.Canonical(shown.blocks[i]) && KnownExtras(shown.extras)
    requires Schedule.ValidSlots(DecodeBlock(shown.blocks[i]).startTimes)
    requires Prefilled(f, DecodeBlock(shown.blocks[i]), width, today)
    requires ValidDate(f.periodStart) && Submitted(f, parsed, today)
    ensures NormalizeForWrite(parsed, DateOf(today), 12).Ok?
    ensures |s.blocks| == |s.programs| == 3
    ensures var cs := BackupChanges(NormalizeForWrite(parsed, DateOf(today), 12).value, width);
            PatchError(s, i, cs, width).None? && PatchYields(s, i, cs, width, [], s)
  {
    hide IsSnapshot, Digestible, Revision, PatchYields, PatchError, NormalizeForWrite, BackupChanges,
         EditorForm.Canonical, Submitted, Prefilled, DecodeBlock, KnownExtras;
    RevisionIdentifies(s, shown);
    SnapshotBlock(s, i);
    SnapshotBlock(shown, i);
    DecodedPeriodStart(s.blocks[i]);
    UntouchedSendsNothing(s, i, width, today, f, parsed);
  }

  lemma DecodedPeriodStart(b: seq<NFrame>)
    requires ReadableBlock(b)
    ensures DecodeBlock(b).periodStart.None?
  {
  }

  /** A patch that leaves the block alone has no frames. */
  lemma OneYield(s: Snapshot, i: int, cs: seq<Change>, n: int, ws: seq<Frame>, e: Snapshot)
    requires PatchYields(s, i, cs, n, [], s) && PatchYields(s, i, cs, n, ws, e)
    ensures ws == []
  {
    hide PatchedBlock, IsSnapshot, PatchError, DecodeBlock;
  }

  /** A patched snapshot stays digestible, and has the old revision exactly when there is nothing to send. */
  lemma PatchedDigest(s: Snapshot, i: int, cs: seq<Change>, n: int, ws: seq<Frame>, e: Snapshot)
    requires PatchYields(s, i, cs, n, ws, e) && Digestible(s)
    ensures Digestible(e) && (Revision(e) == Revision(s) <==> ws == [])
  {
    hide IsSnapshot, DecodeBlock, KnownExtras, PatchedBlock, PhaseOk, BlockWrites, Revision;
    YieldsSnapshot(s, i, cs, n, ws, e);
    BlockDigest(s, i, PatchedBlock(s.blocks[i], cs), e);
    RevisionIdentifies(s, e);
    UnchangedBlock(s, i, PatchedBlock(s.blocks[i], cs));
  }

  lemma UnchangedBlock(s: Snapshot, i: int, b: seq<NFrame>)
    requires |s.blocks| == 3 && 0 <= i < 3
    ensures s.blocks[i := b] == s.blocks <==> b == s.blocks[i]
  {
  }

  lemma BlockDigest(s: Snapshot, i: int, b: seq<NFrame>, e: Snapshot)
    requires Digestible(s) && 0 <= i < 3 && StandardBlock(b)
    requires e.blocks == s.blocks[i := b] && e.extras == s.extras
    ensures Digestible(e)
  {
  }

  /** An edit, end to end: with faithful reads before and after, a written edit left the controller's slot
      decoding to the normalised program on its nine fields (31-byte names permitting, and only then), and
      every other slot as it was. */
  lemma EditEndToEnd(d: Store, tops: seq<int>, current: Snapshot, index: int, n: Program, stations: int,
                     beforeRevision: Option<Frame>, ws: seq<Frame>, expected: Snapshot,
                     now: Store, tops': seq<int>, verified: Snapshot)
    requires StoreOk(d) && TopsOk(tops) && Reads(d, tops, current.frames) && IsSnapshot(current, current.frames)
    requires Accepted(current, index, n, stations, beforeRevision, ws, expected)
    requires StoreOk(now) && TopsOk(tops') && tops'[3..] == tops[3..]
    requires Reads(now, tops', verified.frames) && IsSnapshot(verified, verified.frames) && Digestible(verified)
    requires Revision(verified) == Revision(expected)
    ensures now == ApplyWrites(d, ws) && forall key :: key in d && key.0 != index ==> key in now && now[key] == d[key]
    ensures 0 <= index < 3 && |current.blocks| == |current.programs| == |verified.programs| == 3
    ensures StandardBlock(current.blocks[index])
    ensures Matches(verified.programs[index], n, current.programs[index], stations) <==>
              NameFits(Name(n.name), current.blocks[index])
  {
    hide IsSnapshot, Digestible, Reads, Describes, StoreOk, Revision, PatchYields, BackupChanges, Matches, NameFits;
    var cs := BackupChanges(n, stations);
    ReadDescribes(d, tops, current.frames, current);
    ReadDescribes(now, tops', verified.frames, verified);
    PatchMovesStore(current, d, tops, index, cs, stations, ws, expected);
    RevisionOfStore(verified, now, tops', expected, ApplyWrites(d, ws), tops);
    DescriptionUnique(verified, expected, now, tops', tops);
    YieldsSnapshot(current, index, cs, stations, ws, expected);
    SnapshotBlock(current, index);
    SnapshotBlock(expected, index);
    BackupRestored(current.blocks[index], n, stations);
  }
}
