/** The restore journal can be forgotten: two attempts after which a controller holds half a restore and no journal
    says so. */
module LostJournal {
  import opened Options
  import opened Bytes
  import opened Protocol
  import opened Snapshots
  import opened Patching
  import opened PatchMeaning
  import opened Editor
  import opened Replay
  import opened Device
  import opened Restore
  import opened ProgramBackup
  import opened Reconciliation
  import opened RestoreTransaction
  import opened RestoreHistory
  import opened RestoreSafety

  // ---- reading a controller without hidden slots --------------------------------------------------

  /** Slots A, B and C, and nothing else. */
  ghost predicate OnlyABC(d: Store) {
    StoreOk(d) && forall key :: key in d ==> key.0 < 3
  }

  function Tops(): (tops: seq<int>)
    ensures TopsOk(tops) && forall i :: 0 <= i < 12 ==> tops[i] == 6
  {
    seq(12, i => 6)
  }

  lemma StoredSlot(d: Store, i: int)
    requires StoreOk(d) && 0 <= i < 3
    ensures SlotBlock(StoredBlock(d, i), i) && StandardBlock(StoredBlock(d, i))
  {
    StoredBlockIsStandard(d, i);
    hide StoreOk, StandardBlock;
    StandardIsReadable(StoredBlock(d, i));
    hide ReadableBlock;
    forall k | 0 <= k < 7
      ensures var f := StoredBlock(d, i)[k]; f[0] == 0x3A && f[2] == k && f[3] == 0x10 + i
    {
    }
  }

  /** A plain read: the stored chunks of A, B and C in order. */
  function ReadFrames(d: Store): seq<Frame>
    requires OnlyABC(d)
  {
    Numbered(StoredBlock(d, 0), 6) + Numbered(StoredBlock(d, 1), 6) + Numbered(StoredBlock(d, 2), 6)
  }

  function ReadSnapshot(d: Store): Snapshot
    requires OnlyABC(d)
  {
    StoredSlot(d, 0);
    StoredSlot(d, 1);
    StoredSlot(d, 2);
    var a, b, c := StoredBlock(d, 0), StoredBlock(d, 1), StoredBlock(d, 2);
    Snapshot(ReadFrames(d), [a, b, c], [], [DecodeBlock(a), DecodeBlock(b), DecodeBlock(c)])
  }

  lemma ReadSnapshotDenoted(d: Store)
    requires OnlyABC(d)
    ensures IsSnapshot(ReadSnapshot(d), ReadSnapshot(d).frames)
  {
    hide SlotBlock, IsSnapshot, DecodeBlock, StoredBlock, OnlyABC, StandardBlock;
    OnlyOk(d);
    StoredSlot(d, 0);
    StoredSlot(d, 1);
    StoredSlot(d, 2);
    NumberedResponse(StoredBlock(d, 0), StoredBlock(d, 1), StoredBlock(d, 2), 6, 6, 6);
  }

  lemma OnlyOk(d: Store)
    requires OnlyABC(d)
    ensures StoreOk(d)
  {
  }

  lemma ReadChunkIn(d: Store, i: int, k: int)
    requires OnlyABC(d) && 0 <= i < 3 && 0 <= k < 7
    ensures Fragment(d, Tops(), (i, k)) == Numbered(StoredBlock(d, i), 6)[k]
  {
    FragmentOfBlock(d, Tops(), i, k);
  }

  /** It is a faithful read. */
  lemma ReadIsFaithful(d: Store)
    requires OnlyABC(d)
    ensures FaithfulRead(d, Tops()[3..], ReadSnapshot(d))
  {
    hide SlotBlock, IsSnapshot, DecodeBlock, StoredBlock, StandardBlock, Content, Fragment;
    var frames := ReadFrames(d);
    var a, b, c := StoredBlock(d, 0), StoredBlock(d, 1), StoredBlock(d, 2);
    StoredSlot(d, 0);
    StoredSlot(d, 1);
    StoredSlot(d, 2);
    NumberedSlots(a, b, c, 6, 6, 6, frames);
    ReadSnapshotDenoted(d);
    forall key | key in d
      ensures Fragment(d, Tops(), key) in Content(frames)
    {
      ReadChunkIn(d, key.0, key.1);
      assert key == (key.0, key.1);
      assert Fragment(d, Tops(), key) in SlotOf(Content(frames), key.0);
    }
    forall f | f in Content(frames)
      ensures exists key :: key in d && f == Fragment(d, Tops(), key)
    {
      var i := SlotIn(frames, f);
      assert f in SlotOf(Content(frames), i);
      var k :| 0 <= k < 7 && f == Numbered(StoredBlock(d, i), 6)[k];
      ReadChunkIn(d, i, k);
      assert (i, k) in d;
    }
    assert ReadAs(d, Tops(), Tops()[3..], ReadSnapshot(d));
  }

  lemma SlotIn(frames: seq<Frame>, f: NFrame) returns (i: int)
    requires f in Content(frames) && IsExtras(Content(frames), [])
    ensures 0 <= i < 3 && f in SlotOf(Content(frames), i)
  {
    hide Content;
    i := f[3] as int - 0x10;
  }

  // ---- the backup and the controller ---------------------------------------------------------------

  /** Daily at six, ten minutes on the first of twelve stations. */
  function Daily(): Program {
    Program([65], 0, 100, 0, 127, 1, 0, None, None, [Some(360), None, None, None, None, None, None, None],
            TenMinutes())
  }

  function TenMinutes(): (durations: seq<int>)
    ensures |durations| == 12 && forall k :: 0 <= k < 12 ==> 0 <= durations[k] <= 600
  {
    seq(12, k => if k == 0 then 600 else 0)
  }

  /** All three programs, as every backup of the code holds them. */
  function DailyBackup(): Backup {
    map[0 := Daily(), 1 := Daily(), 2 := Daily()]
  }

  lemma DailyEntries()
    ensures BackupOk(DailyBackup()) && DailyBackup().Keys == {0, 1, 2} && DailyBackup() != map[]
    ensures forall i :: 0 <= i < 3 ==> DailyBackup()[i] == Daily()
  {
    hide Daily;
    assert 0 in DailyBackup();
  }

  function DailyChanges(): seq<Change> {
    BackupChanges(Daily(), 12)
  }

  lemma DailyOk()
    ensures AllOk(DailyChanges(), 12) && forall k :: 0 <= k < 9 ==> !DailyChanges()[k].Unsupported?
  {
    hide TenMinutes, DurationChanges, DailyChanges;
    DailyAre();
    DurationsStorable(TenMinutes());
    var cs := DailyChanges();
    assert cs[0] == Name([65]) && cs[7] == StartTimes(Daily().startTimes);
    assert cs[8] == StationDurations(DurationChanges(TenMinutes(), 12));
  }

  lemma DurationsStorable(durations: seq<int>)
    requires |durations| == 12 && forall k :: 0 <= k < 12 ==> 0 <= durations[k] <= 600
    ensures ChangeOk(StationDurations(DurationChanges(durations, 12)), 12)
  {
  }

  lemma DailyAre()
    ensures DailyChanges() == BackupChanges(Daily(), 12)
  {
  }

  /** The program of slot `i` as the store holds it. */
  function StoredProgram(d: Store, i: int): Program
    requires StoreOk(d) && 0 <= i < 3
  {
    StoredSlot(d, i);
    DecodeBlock(StoredBlock(d, i))
  }

  function ProgramA(d: Store): Program
    requires StoreOk(d)
  {
    StoredProgram(d, 0)
  }

  lemma PatchedReadable(b: seq<NFrame>)
    requires StandardBlock(b)
    ensures AllOk(DailyChanges(), 12) && StandardBlock(PatchedBlock(b, DailyChanges()))
    ensures ReadableBlock(PatchedBlock(b, DailyChanges()))
  {
    hide DailyChanges, PatchedBlock, ChangeOk;
    DailyOk();
    PatchedIsStandard(b, DailyChanges());
    hide StandardBlock, ReadableBlock;
    StandardIsReadable(PatchedBlock(b, DailyChanges()));
  }

  /** What the backup makes of a block. */
  function MadeDaily(b: seq<NFrame>): (r: seq<NFrame>)
    requires StandardBlock(b)
    ensures StandardBlock(r) && ReadableBlock(r)
  {
    PatchedReadable(b);
    PatchedBlock(b, DailyChanges())
  }

  /** And of slot A. */
  function Restored(d: Store): (b: seq<NFrame>)
    requires StoreOk(d)
    ensures StandardBlock(b) && ReadableBlock(b)
  {
    StoredSlot(d, 0);
    MadeDaily(StoredBlock(d, 0))
  }

  lemma DailyDecodes(b: seq<NFrame>)
    requires StandardBlock(b)
    ensures var p := DecodeBlock(MadeDaily(b)); p.waterBudget == 100 && p.cycle == 0 && p.startTimes == Daily().startTimes
    ensures PhaseOk(MadeDaily(b))
  {
    hide PatchedBlock, StandardBlock, NameFits, AllOk, BackupChanges, ReadableBlock, TenMinutes;
    PatchedReadable(b);
    BackupRestored(b, Daily(), 12);
    NameShort(b);
    hide DecodeBlock, MadeDaily;
    CycleByte(MadeDaily(b));
  }

  lemma RestoredDecodes(d: Store)
    requires StoreOk(d)
    ensures var p := DecodeBlock(Restored(d)); p.waterBudget == 100 && p.cycle == 0 && p.startTimes == Daily().startTimes
  {
    hide StoreOk, PatchedBlock, StandardBlock, AllOk, StoredBlock, BackupChanges, DecodeBlock, ReadableBlock, PhaseOk;
    StoredSlot(d, 0);
    DailyDecodes(StoredBlock(d, 0));
  }

  lemma NameShort(b: seq<NFrame>)
    requires StandardBlock(b)
    ensures NameFits(Name(Daily().name), b)
  {
  }

  lemma CycleByte(b: seq<NFrame>)
    requires StandardBlock(b) && ReadableBlock(b)
    ensures DecodeBlock(b).cycle == 0 ==> PhaseOk(b)
  {
  }

  ghost predicate KnownCycles(d: Store)
    requires StoreOk(d)
  {
    forall i :: 0 <= i < 3 ==> 0 <= StoredProgram(d, i).cycle < 5
  }

  /** The backup can be restored onto any such controller whose programs have known cycles. */
  lemma Acceptable(d: Store)
    requires OnlyABC(d) && KnownCycles(d)
    ensures AcceptedTo(ReadSnapshot(d), DailyBackup(), 12, 3)
  {
    hide StoredBlock, DecodeBlock, BackupChanges, PatchedBlock, AllOk, PhaseOk, ReadFrames, StandardBlock, DailyBackup,
         ReadableBlock, StoreOk, SlotBlock;
    DailyEntries();
    forall i | 0 <= i < 3
      ensures Refusal(ReadSnapshot(d), DailyBackup(), 12, i).None?
    {
      AcceptableSlot(d, i);
    }
  }

  lemma AcceptableSlot(d: Store, i: int)
    requires OnlyABC(d) && 0 <= i < 3 && 0 <= StoredProgram(d, i).cycle < 5
    ensures PatchError(ReadSnapshot(d), i, DailyChanges(), 12).None?
  {
    hide StoredBlock, DecodeBlock, BackupChanges, PatchedBlock, AllOk, PhaseOk, ReadFrames, StandardBlock,
         ReadableBlock, SlotBlock;
    StoredSlot(d, i);
    DailyOk();
    DailyDecodes(StoredBlock(d, i));
  }

  /** The plan begins with the block of slot A, if that changes, and expects it as restored. */
  lemma PlanStartsWithA(d: Store, ws: seq<Frame>, e: Snapshot)
    requires OnlyABC(d) && PlanYields(ReadSnapshot(d), DailyBackup(), 12, 3, ws, e)
    ensures Restored(d) != StoredBlock(d, 0) ==> BlockWrites(Restored(d)) <= ws
    ensures |e.blocks| == 3 && e.blocks[0] == Restored(d)
  {
    hide PatchYields, BackupChanges, ReadSnapshot, PatchedBlock, AllOk, StandardBlock, StoredBlock, BlockWrites, Restored,
         DailyBackup, IsSnapshot, Explains, StoreOk;
    DailyEntries();
    var s := ReadSnapshot(d);
    var m2, a2, b2 :| PlanStep(s, DailyBackup(), 12, 3, a2, m2, b2, e) && ws == a2 + b2;
    var m1, a1, b1 :| PlanStep(s, DailyBackup(), 12, 2, a1, m1, b1, m2) && a2 == a1 + b1;
    var m0, a0, b0 :| PlanStep(s, DailyBackup(), 12, 1, a0, m0, b0, m1) && a1 == a0 + b0;
    assert a0 == [] && m0 == s && a1 == b0;
    YieldsBlock(d, b0, m1);
    ReadSnapshotDenoted(d);
    PlanBlocks(s, DailyBackup(), 12, 3, ws, e);
    ExpectedA(d, e);
  }

  lemma ExpectedA(d: Store, e: Snapshot)
    requires OnlyABC(d) && AcceptedBelow(ReadSnapshot(d), DailyBackup(), 12, 3) && |e.blocks| == 3
    requires e.blocks[0] == RestoredBlock(ReadSnapshot(d), DailyBackup(), 12, 3, 0)
    ensures e.blocks[0] == Restored(d)
  {
    hide BackupChanges, PatchedBlock, AllOk, StandardBlock, StoredBlock, DailyBackup;
    DailyEntries();
  }

  lemma YieldsBlock(d: Store, ws: seq<Frame>, e: Snapshot)
    requires OnlyABC(d) && PatchYields(ReadSnapshot(d), 0, DailyChanges(), 12, ws, e)
    ensures ws == if Restored(d) == StoredBlock(d, 0) then [] else BlockWrites(Restored(d))
  {
    hide IsSnapshot, PatchError, DecodeBlock, StoredBlock, ReadFrames, BlockWrites, PatchedBlock, BackupChanges;
  }

  // ---- the store, frame by frame ---------------------------------------------------------------------

  /** The first `n` chunks of the restore have taken effect. */
  function Part(d: Store, n: nat): Store
    requires StoreOk(d) && n <= 7
  {
    d + BlockStore(Restored(d), 0, n)
  }

  lemma RestoredKeyed(d: Store)
    requires StoreOk(d)
    ensures Keyed(Restored(d), 0) && SameHeads(StoredBlock(d, 0), Restored(d))
  {
    hide PatchedBlock, BackupChanges;
    StoredSlot(d, 0);
    DailyOk();
    PatchedHeads(StoredBlock(d, 0), DailyChanges());
    hide StoreOk, StoredBlock;
    HeadsKeyed(StoredBlock(d, 0), Restored(d));
  }

  lemma HeadsKeyed(b: seq<NFrame>, r: seq<NFrame>)
    requires SlotBlock(b, 0) && SameHeads(b, r) && StandardBlock(r)
    ensures Keyed(r, 0)
  {
    forall k | 0 <= k < 7
      ensures r[k][3] == 0x10
    {
      assert r[k][3] == r[k][..4][3] && b[k][3] == b[k][..4][3];
    }
  }

  lemma PartStore(d: Store, n: nat)
    requires OnlyABC(d) && n <= 7
    ensures OnlyABC(Part(d, n))
    ensures forall k :: 0 <= k < 7 ==> StoredBlock(Part(d, n), 0)[k] == if k < n then Restored(d)[k] else StoredBlock(d, 0)[k]
  {
    hide PatchedBlock, Restored;
    RestoredKeyed(d);
    PartKeys(d, n);
    BlockStoreKeys(Restored(d), 0, n);
    hide BlockStore, SameHeads, StandardLength, ReadableBlock;
    forall k | 0 <= k < 7
      ensures StoredBlock(Part(d, n), 0)[k] == if k < n then Restored(d)[k] else StoredBlock(d, 0)[k]
    {
      if k < n { SameChunk(d, Restored(d), k); }
    }
  }

  lemma SameChunk(d: Store, r: seq<NFrame>, k: int)
    requires StoreOk(d) && Keyed(r, 0) && SameHeads(StoredBlock(d, 0), r) && 0 <= k < 7
    ensures Response(0, k, r[k][4..]) == r[k]
  {
    SameResponse(0, k, d[(0, k)], r[k]);
  }

  lemma PartKeys(d: Store, n: nat)
    requires OnlyABC(d) && n <= 7
    ensures OnlyABC(Part(d, n))
  {
    assert d.Keys <= Part(d, n).Keys;
    hide Part, OnlyABC, StoreOk;
    forall key | key in Part(d, n)
      ensures key in d && |Part(d, n)[key]| == |d[key]|
    {
      PartPayload(d, n, key);
    }
    SameShape(d, Part(d, n));
  }

  lemma SameShape(d: Store, now: Store)
    requires OnlyABC(d) && d.Keys <= now.Keys && forall key :: key in now ==> key in d && |now[key]| == |d[key]|
    ensures OnlyABC(now)
  {
    hide StandardLength;
  }

  lemma PartPayload(d: Store, n: nat, key: Key)
    requires OnlyABC(d) && n <= 7 && key in Part(d, n)
    ensures key in d && |Part(d, n)[key]| == |d[key]|
  {
    hide Restored, StandardLength, BlockStore, ReadableBlock;
    RestoredKeyed(d);
    BlockStoreKeys(Restored(d), 0, n);
    if key in BlockStore(Restored(d), 0, n) { assert key == (0, key.1); }
  }

  /** With three chunks, program A has the new header and the old start times, and the others are as they were. */
  lemma PartPrograms(d: Store)
    requires OnlyABC(d)
    ensures OnlyABC(Part(d, 3))
    ensures var p := ProgramA(Part(d, 3)); p.waterBudget == 100 && p.cycle == 0 && p.startTimes == ProgramA(d).startTimes
    ensures forall i :: 1 <= i < 3 ==> StoredProgram(Part(d, 3), i) == StoredProgram(d, i)
  {
    hide StoredBlock, DecodeBlock, Part, Restored, StoreOk;
    PartStore(d, 3);
    RestoredDecodes(d);
    StoredSlot(d, 0);
    StoredSlot(Part(d, 3), 0);
    SameHeader(StoredBlock(Part(d, 3), 0), Restored(d));
    SameStarts(StoredBlock(Part(d, 3), 0), StoredBlock(d, 0));
    forall i | 1 <= i < 3
      ensures StoredBlock(Part(d, 3), i) == StoredBlock(d, i)
    {
      PartElsewhere(d, 3, i);
    }
  }

  lemma PartKnown(d: Store)
    requires Restorable(d)
    ensures OnlyABC(Part(d, 3)) && KnownCycles(Part(d, 3)) && ProgramA(Part(d, 3)).startTimes != Daily().startTimes
  {
    hide StoredProgram, Part, StoreOk;
    PartPrograms(d);
    forall i | 0 <= i < 3
      ensures 0 <= StoredProgram(Part(d, 3), i).cycle < 5
    {
    }
  }

  lemma PartElsewhere(d: Store, n: nat, i: int)
    requires OnlyABC(d) && n <= 7 && 1 <= i < 3 && OnlyABC(Part(d, n))
    ensures StoredBlock(Part(d, n), i) == StoredBlock(d, i)
  {
    hide Restored, BlockStore, ReadableBlock, StandardLength;
    BlockStoreKeys(Restored(d), 0, n);
  }

  lemma SameHeader(b: seq<NFrame>, r: seq<NFrame>)
    requires ReadableBlock(b) && ReadableBlock(r) && b[2] == r[2]
    ensures DecodeBlock(b).waterBudget == DecodeBlock(r).waterBudget && DecodeBlock(b).cycle == DecodeBlock(r).cycle
  {
  }

  lemma SameStarts(b: seq<NFrame>, r: seq<NFrame>)
    requires ReadableBlock(b) && ReadableBlock(r) && b[3] == r[3]
    ensures DecodeBlock(b).startTimes == DecodeBlock(r).startTimes
  {
  }

  /** Stores that differ by day bytes alone agree on header and start times of program A. */
  lemma UpToDaysPrograms(a: Store, b: Store)
    requires StoreOk(a) && StoreOk(b) && UpToDays(a, b)
    ensures ProgramA(a).waterBudget == ProgramA(b).waterBudget && ProgramA(a).startTimes == ProgramA(b).startTimes
  {
    StoredSlot(a, 0);
    StoredSlot(b, 0);
    assert (0, 2) in a && (0, 3) in a;
    assert StoredBlock(a, 0)[3] == StoredBlock(b, 0)[3];
    hide StoreOk, StandardBlock;
    HeaderPayload(a[(0, 2)], b[(0, 2)], StoredBlock(a, 0)[2], StoredBlock(b, 0)[2]);
    SameStarts(StoredBlock(a, 0), StoredBlock(b, 0));
    BudgetOf(StoredBlock(a, 0));
    BudgetOf(StoredBlock(b, 0));
  }

  lemma HeaderPayload(x: Frame, y: Frame, f: NFrame, g: NFrame)
    requires |x| == |y| == 12 && (x == y || SameButDay(x, y)) && f[4..] == x && g[4..] == y
    ensures |f| == |g| == 16 && Word16(f, 6) == Word16(g, 6)
  {
    assert forall k :: 0 <= k < 8 ==> x[k] == x[..8][k] && y[k] == y[..8][k];
    assert f[6] == x[2] && f[7] == x[3] && g[6] == y[2] && g[7] == y[3];
  }

  lemma BudgetOf(b: seq<NFrame>)
    requires ReadableBlock(b)
    ensures DecodeBlock(b).waterBudget == Word16(b[2], 6)
  {
  }

  // ---- two attempts ---------------------------------------------------------------------------------------

  /** A controller whose program A has other start times and another budget than the backup. */
  ghost predicate Restorable(d: Store) {
    OnlyABC(d) && KnownCycles(d)
    && ProgramA(d).startTimes != Daily().startTimes && ProgramA(d).waterBudget != 100
  }

  /** Every read is faithful; three frames take effect, the fourth gets lost with the link. */
  function FirstEnv(d: Store): RestoreEnv
    requires OnlyABC(d)
  {
    var read := Read(ReadSnapshot(d));
    var deliveries := (k: nat) => if k < 3 then Delivery(Acked, true) else Delivery(Interrupted(Failed), false);
    RestoreEnv(true, read, true, true, true, true, WriteEnv(read, None, deliveries, Broken(Failed), None))
  }

  /** Then every save succeeds, but the link drops in the read before the write. */
  function SecondEnv(d: Store): RestoreEnv
    requires OnlyABC(d)
  {
    var deliveries := (k: nat) => Delivery(Interrupted(Failed), false);
    RestoreEnv(true, Read(ReadSnapshot(d)), true, true, true, true,
               WriteEnv(Broken(Failed), None, deliveries, Broken(Failed), None))
  }

  lemma ReadDigestible(d: Store)
    requires OnlyABC(d)
    ensures Digestible(ReadSnapshot(d)) && IsSnapshot(ReadSnapshot(d), ReadSnapshot(d).frames)
    ensures Describes(ReadSnapshot(d), d, Tops())
  {
    hide Describes, Digestible, ReadSnapshot, IsSnapshot;
    OnlyOk(d);
    ReadSnapshotDenoted(d);
    ReadIsFaithful(d);
    var tops :| ReadAs(d, tops, Tops()[3..], ReadSnapshot(d));
    ReadDescribes(d, tops, ReadSnapshot(d).frames, ReadSnapshot(d));
    DescribedLengths(ReadSnapshot(d), d, tops);
    OtherTops(d, ReadSnapshot(d), tops);
  }

  /** Without hidden slots the numbering does not show. */
  lemma OtherTops(d: Store, s: Snapshot, tops: seq<int>)
    requires OnlyABC(d) && TopsOk(tops) && Describes(s, d, tops)
    ensures Describes(s, d, Tops())
  {
    hide StoreOk, BlockStored, ReadableBlock, DecodeBlock, StrictlySorted;
    assert forall f :: !IsHidden(d, tops, f) && !IsHidden(d, Tops(), f);
  }

  lemma EnvsOk(d: Store)
    requires OnlyABC(d)
    ensures RestoreEnvOk(FirstEnv(d)) && RestoreEnvOk(SecondEnv(d))
  {
    hide IsSnapshot, Digestible, ReadSnapshot;
    ReadDigestible(d);
  }

  lemma WritesRestored(d: Store)
    requires Restorable(d)
    ensures Restored(d) != StoredBlock(d, 0)
  {
    hide StoredBlock, DecodeBlock, Restored;
    RestoredDecodes(d);
    StoredSlot(d, 0);
  }

  /** The first attempt sends four frames, three of which take effect, and stays open. */
  lemma FirstAttempt(d: Store, a: Attempt, f: Facts)
    requires Restorable(d) && AttemptOk(a, FirstEnv(d), DailyBackup(), 12) && Recorded(f, a, FirstEnv(d))
    requires OneShot(f.sent, a.frames, a.expected, Revision(a.before), FirstEnv(d).write)
    ensures a.before == ReadSnapshot(d) && |a.frames| >= 7
    ensures f.planned.FramesToSend? && f.ending.Open? && f.sent == 4
    ensures Delivered(d, a.frames[..4], FirstEnv(d).write.deliveries) == Part(d, 3)
  {
    hide Restored, StoredBlock, ReadSnapshot, PlanYields, PatchYields, Digestible, Revision, Explains, BlockWrites, IsSnapshot,
         RefusedUpfront, DailyBackup, OneShot, Recorded, Delivered, Part;
    PlanStartsWithA(d, a.frames, a.expected);
    WritesRestored(d);
    ReadSnapshotDenoted(d);
    PlanBlocks(a.before, DailyBackup(), 12, 3, a.frames, a.expected);
    assert FirstEnv(d).write.deliveries(3).reply.Interrupted?;
    FourSent(a, f, FirstEnv(d));
    PartWritten(d, a.frames);
  }

  lemma FourSent(a: Attempt, f: Facts, env: RestoreEnv)
    requires Digestible(a.before) && Digestible(a.expected) && Recorded(f, a, env) && |a.frames| >= 7 && env.begun
    requires env.write.preflight == Read(a.before) && env.write.link.None? && Explains(a.before, a.frames, a.expected)
    requires OneShot(f.sent, a.frames, a.expected, Revision(a.before), env.write)
    requires forall k: nat :: env.write.deliveries(k).reply.Acked? <==> k < 3
    ensures f.planned.FramesToSend? && f.ending.Open? && f.sent == 4
  {
    hide Explains, Digestible, Revision;
    var ds := env.write.deliveries;
    assert !ds(3).reply.Acked? && ds(0).reply.Acked? && ds(1).reply.Acked? && ds(2).reply.Acked?;
  }

  lemma PartApplied(d: Store, n: nat)
    requires OnlyABC(d) && n <= 7
    ensures ApplyWrites(d, BlockWrites(Restored(d))[..n]) == Part(d, n)
  {
    hide Restored, BlockWrites, BlockStore, ApplyWrites;
    RestoredKeyed(d);
    BlockWritesApplied(d, Restored(d), 0, n);
  }

  /** Three of four frames take effect. */
  lemma ThreeDelivered(d: Store, ws: seq<Frame>, ds: nat -> Delivery)
    requires |ws| >= 4 && forall k: nat :: ds(k).applied <==> k < 3
    ensures Delivered(d, ws[..4], ds) == ApplyWrites(d, ws[..3])
  {
    hide ApplyWrites, Delivered;
    assert forall k :: 0 <= k < 3 ==> ds(k).applied;
    AllDelivered(d, ws[..3], ds);
    DeliveredStep(d, ws, ds, 3);
  }

  lemma PartWritten(d: Store, ws: seq<Frame>)
    requires OnlyABC(d) && BlockWrites(Restored(d)) <= ws
    ensures |ws| >= 7 && Delivered(d, ws[..4], FirstEnv(d).write.deliveries) == Part(d, 3)
  {
    hide Restored, BlockWrites, ReadSnapshot, Part, ApplyWrites, Delivered;
    PartApplied(d, 3);
    assert ws[..3] == BlockWrites(Restored(d))[..3];
    ThreeDelivered(d, ws, FirstEnv(d).write.deliveries);
  }

  /** The store a full plan would have made: program A with the start times and the budget of the backup. */
  lemma PlannedProgram(d: Store, ws: seq<Frame>, e: Snapshot)
    requires OnlyABC(d) && PlanYields(ReadSnapshot(d), DailyBackup(), 12, 3, ws, e)
    ensures StoreOk(ApplyWrites(d, ws)) && Describes(e, ApplyWrites(d, ws), Tops())
    ensures ProgramA(ApplyWrites(d, ws)).startTimes == Daily().startTimes
  {
    hide ReadSnapshot, PlanYields, DailyBackup, ApplyWrites, Restored, BlockWrites, StoredBlock, Describes, DecodeBlock,
         IsSnapshot, Digestible, OnlyABC;
    OnlyOk(d);
    ReadDigestible(d);
    PlanMovesStore(ReadSnapshot(d), d, Tops(), DailyBackup(), 12, 3, ws, e);
    PlanStartsWithA(d, ws, e);
    DescribedBlock(e, ApplyWrites(d, ws), Tops());
    RestoredDecodes(d);
  }

  lemma DescribedBlock(s: Snapshot, d: Store, tops: seq<int>)
    requires StoreOk(d) && TopsOk(tops) && Describes(s, d, tops)
    ensures |s.blocks| == 3 && s.blocks[0] == StoredBlock(d, 0)
  {
    hide StoreOk, DecodeBlock, ReadableBlock, StrictlySorted;
    assert BlockStored(s.blocks[0], d, 0);
  }

  /** What three of the chunks leave is neither the old state nor the planned one, whatever the day bytes. */
  lemma HalfWay(d: Store, planned: Store)
    requires Restorable(d) && StoreOk(planned) && ProgramA(planned).startTimes == Daily().startTimes
    ensures !UpToDays(Part(d, 3), d) && !UpToDays(Part(d, 3), planned)
  {
    hide Part, StoreOk, StoredProgram, UpToDays;
    PartPrograms(d);
    OnlyOk(Part(d, 3));
    if UpToDays(Part(d, 3), d) { UpToDaysPrograms(Part(d, 3), d); }
    if UpToDays(Part(d, 3), planned) { UpToDaysPrograms(Part(d, 3), planned); }
  }

  /** A fresh read of that state diverges from the journal of the first attempt. */
  lemma Diverges(d: Store, a: Attempt)
    requires Restorable(d) && AttemptOk(a, FirstEnv(d), DailyBackup(), 12) && OnlyABC(Part(d, 3))
    requires a.before == ReadSnapshot(d)
    ensures Digestible(ReadSnapshot(Part(d, 3))) && Digestible(a.before) && Digestible(a.expected)
    ensures VerdictOf(ReadSnapshot(Part(d, 3)), JournalOf(a.before, a.expected)).Diverged?
  {
    hide Part, StoreOk, Describes, Reads, Digestible, IsSnapshot, ReadSnapshot, PlanYields, UpToDays, VerdictOf, ApplyWrites,
         JournalOf, Revision, DailyBackup, ProgramA;
    ReadDigestible(d);
    ReadDigestible(Part(d, 3));
    var planned := ApplyWrites(d, a.frames);
    PlannedProgram(d, a.frames, a.expected);
    HalfWay(d, planned);
    PlannedDigest(a.before, DailyBackup(), 12, a.frames, a.expected);
    ReadIsFaithful(Part(d, 3));
    SameStoreUpToDays(d);
    var tops :| ReadAs(Part(d, 3), tops, Tops()[3..], ReadSnapshot(Part(d, 3)));
    ReconcileIsSound(d, planned, Part(d, 3), Tops(), tops, a.before, a.expected, ReadSnapshot(Part(d, 3)));
  }

  /** The second attempt has frames to send and is refused before the first. */
  lemma SecondAttempt(d: Store, a: Attempt, f: Facts)
    requires OnlyABC(d) && ProgramA(d).startTimes != Daily().startTimes
    requires AttemptOk(a, SecondEnv(d), DailyBackup(), 12) && Recorded(f, a, SecondEnv(d))
    ensures f.planned.FramesToSend? && f.ending.BeforeFirst? && f.sent == 0
  {
    hide Restored, StoredBlock, ReadSnapshot, PlanYields, PatchYields, Digestible, Revision, Explains, BlockWrites, IsSnapshot,
         Opened, DailyBackup;
    PlanStartsWithA(d, a.frames, a.expected);
    RestoredDecodes(d);
    BlocksShape(a);
  }

  lemma BlocksShape(a: Attempt)
    requires Digestible(a.expected)
    ensures |a.expected.blocks| == 3
  {
  }

  function ZeroBlock(): (b: seq<NFrame>)
    ensures |b| == 7 && forall k :: 0 <= k < 7 ==> |b[k]| == StandardLength(k) && forall o :: 0 <= o < |b[k]| ==> b[k][o] == 0
  {
    seq(7, k requires 0 <= k < 7 => seq(StandardLength(k), o => 0))
  }

  /** A controller of zeros. */
  function Zero(): Store {
    BlockStore(ZeroBlock(), 0, 7) + BlockStore(ZeroBlock(), 1, 7) + BlockStore(ZeroBlock(), 2, 7)
  }

  lemma ZeroChunk(i: int, k: int)
    requires 0 <= i < 3 && 0 <= k < 7
    ensures (i, k) in Zero() && Zero()[(i, k)] == ZeroBlock()[k][4..]
  {
    hide ZeroBlock, BlockStore;
    BlockStoreKeys(ZeroBlock(), 0, 7);
    BlockStoreKeys(ZeroBlock(), 1, 7);
    BlockStoreKeys(ZeroBlock(), 2, 7);
  }

  lemma ZeroKey(key: Key)
    requires key in Zero()
    ensures 0 <= key.0 < 3 && 0 <= key.1 < 7
  {
    hide ZeroBlock, BlockStore;
    BlockStoreKeys(ZeroBlock(), 0, 7);
    BlockStoreKeys(ZeroBlock(), 1, 7);
    BlockStoreKeys(ZeroBlock(), 2, 7);
  }

  lemma ZeroOk()
    ensures OnlyABC(Zero())
  {
    hide Zero, ZeroBlock, StandardLength;
    forall key | key in Zero()
      ensures 0 <= key.0 < 3 && 0 <= key.1 < 7 && |Zero()[key]| == StandardLength(key.1) - 4
    {
      ZeroKey(key);
      ZeroChunk(key.0, key.1);
      assert key == (key.0, key.1);
    }
    forall i, k | 0 <= i < 3 && 0 <= k < 7
      ensures (i, k) in Zero()
    {
      ZeroChunk(i, k);
    }
  }

  lemma ZeroRestorable()
    ensures Restorable(Zero())
  {
    hide Zero, StoreOk, StandardBlock, ZeroBlock;
    ZeroOk();
    forall i | 0 <= i < 3
      ensures var p := StoredProgram(Zero(), i); p.cycle == 0 && p.waterBudget == 0 && p.startTimes[0] == Some(0)
    {
      StoredSlot(Zero(), i);
      ZeroChunk(i, 2);
      ZeroChunk(i, 3);
      hide SlotBlock;
      ZeroHeader(StoredBlock(Zero(), i));
    }
  }

  lemma ZeroHeader(b: seq<NFrame>)
    requires ReadableBlock(b) && b[2][4..] == ZeroBlock()[2][4..] && b[3][4..] == ZeroBlock()[3][4..]
    ensures var p := DecodeBlock(b); p.cycle == 0 && p.waterBudget == 0 && p.startTimes[0] == Some(0)
  {
    assert b[2][6] == b[2][4..][2] && b[2][7] == b[2][4..][3] && b[2][8] == b[2][4..][4];
    assert b[3][4] == b[3][4..][0] && b[3][5] == b[3][4..][1];
    assert ZeroBlock()[2][6] == ZeroBlock()[2][4..][2] && ZeroBlock()[2][7] == ZeroBlock()[2][4..][3]
           && ZeroBlock()[2][8] == ZeroBlock()[2][4..][4];
    assert ZeroBlock()[3][4] == ZeroBlock()[3][4..][0] && ZeroBlock()[3][5] == ZeroBlock()[3][4..][1];
  }

  /** Two attempts on that controller with a full backup, every read faithful and every save successful, lose the
      journal of a restore that is half applied: the controller is neither in its old state nor in the one the first
      attempt planned, and nothing in memory or on disk says so. */
  method Forget() returns (b: ProgramBackupStore, c: Controller, ghost first: Attempt)
    ensures b.Valid() && b.programs == DailyBackup() && b.pending == None && b.disk.Some? && b.disk.value.pending == None
    ensures DailyBackup().Keys == {0, 1, 2} && OnlyABC(Zero()) && AttemptOk(first, FirstEnv(Zero()), DailyBackup(), 12)
    ensures |first.frames| >= 7 && c.sent == first.frames[..4]
    ensures !UpToDays(c.store, Zero()) && !UpToDays(c.store, ApplyWrites(Zero(), first.frames))
  {
    hide Zero, Restored, Part, UpToDays, StoreOk, DailyBackup, ApplyWrites, BlockWrites, IsSnapshot, ProgramA, FirstEnv,
         ReadSnapshot, JournalOf, KnownCycles, ProgramBackupStore.Valid, ProgramBackupStore.Anchored;
    DailyEntries();
    ZeroRestorable();
    b := Installed();
    c := new Controller(Zero());
    first := Once(b, c);
    Again(b, c, first, Zero());
    PlannedProgram(Zero(), first.frames, first.expected);
    HalfWay(Zero(), ApplyWrites(Zero(), first.frames));
  }

  /** The backup as it comes from disk. */
  method Installed() returns (b: ProgramBackupStore)
    ensures fresh(b) && b.Valid() && b.Anchored() && b.programs == DailyBackup() && b.pending == None && b.disk.Some?
  {
    hide DailyBackup, IsSnapshot, RepairDue, Repaired;
    DailyEntries();
    b := new ProgramBackupStore(Some(Disk(DailyBackup(), [], None)));
    var _, _ := b.Load(true);
  }

  /** The first of the two attempts. */
  method Once(b: ProgramBackupStore, c: Controller) returns (ghost a: Attempt)
    requires b.Valid() && b.Anchored() && b.programs == DailyBackup() && b.pending == None && Restorable(c.store)
    modifies b, c
    ensures b.Valid() && b.Anchored() && b.programs == old(b.programs) && b.disk.Some?
    ensures AttemptOk(a, FirstEnv(old(c.store)), DailyBackup(), 12) && a.before == ReadSnapshot(old(c.store))
    ensures |a.frames| >= 7
    ensures b.pending == DurableJournal(b.disk) == Some(JournalOf(a.before, a.expected))
    ensures c.store == Part(old(c.store), 3) && c.sent == old(c.sent) + a.frames[..4]
  {
    hide Restored, StoredBlock, DecodeBlock, Recorded, AcceptedTo, OutcomeOf, VerdictOf, Part, AttemptOk, ReadSnapshot,
         DailyBackup, JournalOf, OneShot, ApplyWrites, Delivered, ProgramBackupStore.Valid, ProgramBackupStore.Anchored;
    var d := c.store;
    DailyEntries();
    EnvsOk(d);
    Acceptable(d);
    ghost var attempt, facts;
    var outcome;
    outcome, attempt, facts := RestoreIrrigationPrograms(b, c, 12, FirstEnv(d));
    a := attempt.value;
    AttemptDigests(attempt, FirstEnv(d), DailyBackup(), 12);
    FirstAttempt(d, a, facts);
  }

  /** What the second attempt leaves of the journals. */
  lemma SecondLeaves(d: Store, attempt: Option<Attempt>, f: Facts, journal: Option<Journal>, entry: Option<Journal>)
    requires OnlyABC(d) && ProgramA(d).startTimes != Daily().startTimes && journal.Some?
    requires Reports(f, SecondEnv(d), DailyBackup()) && f.verdict.Diverged? && attempt.Some?
    requires AttemptOk(attempt.value, SecondEnv(d), DailyBackup(), 12) && Recorded(f, attempt.value, SecondEnv(d))
    ensures f.sent == 0 && Journals(journal, journal, f, entry) == (None, None)
    ensures forall s :: OutcomeOf(f, s).NotMutated?
  {
    hide Recorded, AttemptOk, ReadSnapshot, ProgramA, OnlyABC, DailyBackup;
    DailyEntries();
    SecondAttempt(d, attempt.value, f);
  }

  /** The second. */
  method Again(b: ProgramBackupStore, c: Controller, ghost a: Attempt, ghost d: Store)
    requires b.Valid() && b.Anchored() && b.programs == DailyBackup() && b.disk.Some? && Restorable(d)
    requires AttemptOk(a, FirstEnv(d), DailyBackup(), 12) && a.before == ReadSnapshot(d)
    requires c.store == Part(d, 3)
    requires b.pending == DurableJournal(b.disk) == Some(JournalOf(a.before, a.expected))
    modifies b, c
    ensures b.Valid() && b.programs == old(b.programs) && b.pending == DurableJournal(b.disk) == None && b.disk.Some?
    ensures c.store == old(c.store) && c.sent == old(c.sent)
  {
    hide Restored, StoredBlock, DecodeBlock, Recorded, AcceptedTo, OutcomeOf, VerdictOf, Part, AttemptOk, ReadSnapshot, Journals,
         FirstEnv, DailyBackup, JournalOf, OneShot, ApplyWrites, Delivered, UpToDays, StoreOk, ProgramA,
         ProgramBackupStore.Valid, ProgramBackupStore.Anchored;
    PartKnown(d);
    Diverges(d, a);
    var now := c.store;
    DailyEntries();
    EnvsOk(now);
    Acceptable(now);
    ghost var journal := b.pending;
    ghost var attempt, facts;
    var outcome;
    outcome, attempt, facts := RestoreIrrigationPrograms(b, c, 12, SecondEnv(now));
    AttemptDigests(attempt, SecondEnv(now), DailyBackup(), 12);
    SecondLeaves(now, attempt, facts, journal, EntryOf(attempt));
    assert attempt.value.frames[..0] == [];
  }
}
