/** The restore of a protected backup: the fold of patches in `coordinator.py` and its end-to-end effect. */
module Restore {
  import opened Options
  import opened Bytes
  import opened Protocol
  import opened Snapshots
  import opened Patching
  import opened PatchMeaning
  import opened Editor
  import opened Replay
  import opened Device

  /** A backup maps program indices A, B, C (0 to 2) to decoded programs. */
  type Backup = map<int, Program>

  ghost predicate BackupOk(backup: Backup) {
    forall i :: i in backup ==> 0 <= i < 3
  }

  /** The durations a restore writes: those of the controller's own stations. */
  function DurationChanges(durations: seq<int>, stations: int): map<int, int> {
    var n := if stations < 0 then 0 else if stations < |durations| then stations else |durations|;
    map s | s in Range(1, n) :: durations[s - 1]
  }

  function BackupChanges(p: Program, stations: int): (cs: seq<Change>)
    ensures |cs| == 9 && DistinctFields(cs)
  {
    [Name(p.name), InterStationDelay(p.interStationDelay), WaterBudget(p.waterBudget), Cycle(p.cycle),
     WeekDays(p.weekDays), PeriodLength(p.periodLength), SynchroDay(p.synchroDay), StartTimes(p.startTimes),
     StationDurations(DurationChanges(p.durations, stations))]
  }

  /** The nine writable fields agree, durations as far as the controller has stations and the backup entries;
      beyond them the controller keeps what it had. */
  ghost predicate Matches(now: Program, backup: Program, before: Program, stations: int) {
    && now.name == backup.name && now.interStationDelay == backup.interStationDelay
    && now.waterBudget == backup.waterBudget && now.cycle == backup.cycle && now.weekDays == backup.weekDays
    && now.periodLength == backup.periodLength && now.synchroDay == backup.synchroDay
    && now.startTimes == backup.startTimes && now.controllerDate == before.controllerDate
    && |now.durations| == |before.durations| == 12
    && forall s :: 0 <= s < 12 ==>
         now.durations[s] == if s < stations && s < |backup.durations| then backup.durations[s] else before.durations[s]
  }

  lemma BackupOverlay(p: Program, b: Program, stations: int)
    requires |b.durations| == 12
    ensures Matches(Overlaid(b, BackupChanges(p, stations)), p, b, stations)
  {
    var cs := BackupChanges(p, stations);
    var r := b.(name := p.name, interStationDelay := p.interStationDelay, waterBudget := p.waterBudget,
                cycle := p.cycle, weekDays := p.weekDays, periodLength := p.periodLength,
                synchroDay := p.synchroDay, startTimes := p.startTimes);
    OverlayEight(p, b, cs);
    OverlaidLast(b, cs);
    hide Overlaid, BackupChanges;
    DurationsOverlay(r, p.durations, stations);
  }

  lemma OverlaidLast(b: Program, cs: seq<Change>)
    requires |b.durations| == 12 && cs != []
    ensures Overlaid(b, cs) == SetField(Overlaid(b, cs[..|cs| - 1]), cs[|cs| - 1])
  {
  }

  lemma DurationsOverlay(r: Program, durations: seq<int>, stations: int)
    requires |r.durations| == 12
    ensures var q := SetField(r, StationDurations(DurationChanges(durations, stations)));
            && q == r.(durations := q.durations) && |q.durations| == 12
            && forall s :: 0 <= s < 12 ==>
                 q.durations[s] == if s < stations && s < |durations| then durations[s] else r.durations[s]
  {
  }

  lemma OverlayEight(p: Program, b: Program, cs: seq<Change>)
    requires |b.durations| == 12 && |cs| == 9
    requires cs[..8] == [Name(p.name), InterStationDelay(p.interStationDelay), WaterBudget(p.waterBudget), Cycle(p.cycle),
                         WeekDays(p.weekDays), PeriodLength(p.periodLength), SynchroDay(p.synchroDay), StartTimes(p.startTimes)]
    ensures Overlaid(b, cs[..8]) == b.(name := p.name, interStationDelay := p.interStationDelay,
              waterBudget := p.waterBudget, cycle := p.cycle, weekDays := p.weekDays, periodLength := p.periodLength,
              synchroDay := p.synchroDay, startTimes := p.startTimes)
  {
    forall k | 0 < k <= 8
      ensures cs[..k][..k - 1] == cs[..k - 1] && cs[..k][k - 1] == cs[..8][k - 1]
    {
    }
    var b1 := SetField(b, cs[0]);
    assert Overlaid(b, cs[..0]) == b;
    assert Overlaid(b, cs[..1]) == b1;
    var b2 := SetField(b1, cs[1]);
    assert Overlaid(b, cs[..2]) == b2;
    var b3 := SetField(b2, cs[2]);
    assert Overlaid(b, cs[..3]) == b3;
    var b4 := SetField(b3, cs[3]);
    assert Overlaid(b, cs[..4]) == b4;
    var b5 := SetField(b4, cs[4]);
    assert Overlaid(b, cs[..5]) == b5;
    var b6 := SetField(b5, cs[5]);
    assert Overlaid(b, cs[..6]) == b6;
    var b7 := SetField(b6, cs[6]);
    assert Overlaid(b, cs[..7]) == b7;
    assert Overlaid(b, cs[..8]) == SetField(b7, cs[7]);
  }

  /** A patch built from a backup entry restores it, except for a 31-byte name whose terminator the
      controller does not hold: that one name reads back longer, and only that one. */
  lemma BackupRestored(b: seq<NFrame>, p: Program, stations: int)
    requires StandardBlock(b) && AllOk(BackupChanges(p, stations), 12)
    ensures var r := PatchedBlock(b, BackupChanges(p, stations));
            StandardBlock(r) && (Matches(DecodeBlock(r), p, DecodeBlock(b), stations) <==> NameFits(Name(p.name), b))
  {
    hide DecodeBlock, PatchedBlock, StandardBlock, ChangeOk, SetField, Overlaid, Matches;
    var cs := BackupChanges(p, stations);
    StandardIsReadable(b);
    PatchedIsStandard(b, cs);
    StandardIsReadable(PatchedBlock(b, cs));
    if NameFits(Name(p.name), b) {
      forall i | 0 <= i < |cs|
        ensures NameFits(cs[i], b)
      {
        assert cs[i].Name? ==> i == 0;
      }
      PatchOverlays(b, cs);
      BackupOverlay(p, DecodeBlock(b), stations);
    } else {
      UnfitName(b, p, cs);
      MatchesName(DecodeBlock(PatchedBlock(b, cs)), p, DecodeBlock(b), stations);
    }
  }

  lemma MatchesName(now: Program, backup: Program, before: Program, stations: int)
    ensures Matches(now, backup, before, stations) ==> now.name == backup.name
  {
  }

  lemma UnfitName(b: seq<NFrame>, p: Program, cs: seq<Change>)
    requires StandardBlock(b) && AllOk(cs, 12) && !NameFits(Name(p.name), b)
    requires cs != [] && cs[0] == Name(p.name) && forall i :: 1 <= i < |cs| ==> !cs[i].Name?
    ensures StandardBlock(PatchedBlock(b, cs)) && DecodeBlock(PatchedBlock(b, cs)).name != p.name
  {
    hide DecodeBlock, PatchedBlock, ChangeOk, SetField, Overlaid;
    var head, rest := [cs[0]], cs[1..];
    assert cs == head + rest;
    assert AllOk(head, 12) && AllOk(rest, 12);
    PatchesCompose(b, head, rest);
    PatchName(b, p.name);
    PatchOverlays(PatchedBlock(b, head), rest);
    OverlaidKeepsName(DecodeBlock(PatchedBlock(b, head)), rest);
  }

  // ---- the fold over the backup entries --------------------------------------------

  /** Frames and expectation after the entries below `n`, in ascending order. */
  ghost predicate PlanYields(s: Snapshot, backup: Backup, stations: int, n: nat, ws: seq<Frame>, e: Snapshot)
    decreases n, 1
  {
    if n == 0 then ws == [] && e == s
    else if n - 1 in backup then exists m, a, b :: PlanStep(s, backup, stations, n, a, m, b, e) && ws == a + b
    else PlanYields(s, backup, stations, n - 1, ws, e)
  }

  /** The entry `n - 1` patches the expectation `m` of the entries before it into `e`. */
  ghost predicate PlanStep(s: Snapshot, backup: Backup, stations: int, n: nat, a: seq<Frame>, m: Snapshot,
                           b: seq<Frame>, e: Snapshot)
    requires n > 0 && n - 1 in backup
    decreases n, 0
  {
    PlanYields(s, backup, stations, n - 1, a, m)
    && PatchYields(m, n - 1, BackupChanges(backup[n - 1], stations), stations, b, e)
  }

  /** Why the entry for slot `i` cannot be restored onto `s`; `None` when it can. */
  ghost function Refusal(s: Snapshot, backup: Backup, stations: int, i: int): Option<Error>
    requires |s.blocks| == 3 && |s.programs| == 3
  {
    if i in backup then PatchError(s, i, BackupChanges(backup[i], stations), stations) else None
  }

  /** Slot `i` and everything outside the slots are as in `s`. */
  ghost predicate SameSlot(s: Snapshot, m: Snapshot, i: int) {
    && |s.blocks| == 3 && |s.programs| == 3 && |m.blocks| == 3 && |m.programs| == 3 && m.extras == s.extras
    && (0 <= i < 3 ==> m.blocks[i] == s.blocks[i] && m.programs[i] == s.programs[i])
  }

  ghost predicate AcceptedTo(s: Snapshot, backup: Backup, stations: int, n: int)
    requires |s.blocks| == 3 && |s.programs| == 3
  {
    forall i :: 0 <= i < n ==> Refusal(s, backup, stations, i).None?
  }

  ghost predicate FirstRefusal(s: Snapshot, backup: Backup, stations: int, i: int, error: Error)
    requires |s.blocks| == 3 && |s.programs| == 3
  {
    0 <= i < 3 && Refusal(s, backup, stations, i) == Some(error) && AcceptedTo(s, backup, stations, i)
  }

  lemma RefusedAt(s: Snapshot, backup: Backup, stations: int, i: int, error: Error)
    requires |s.blocks| == 3 && |s.programs| == 3 && 0 <= i < 3
    requires Refusal(s, backup, stations, i) == Some(error) && AcceptedTo(s, backup, stations, i)
    ensures FirstRefusal(s, backup, stations, i, error) && !AcceptedTo(s, backup, stations, 3)
  {
  }

  lemma StillSame(s: Snapshot, backup: Backup, stations: int, m: Snapshot, e: Snapshot, i: nat)
    requires |s.blocks| == 3 && |s.programs| == 3
    requires AcceptedTo(s, backup, stations, i) && Refusal(s, backup, stations, i).None?
    requires forall j :: i <= j < 3 ==> SameSlot(s, m, j)
    requires forall j :: j != i ==> SameSlot(m, e, j)
    ensures AcceptedTo(s, backup, stations, i + 1)
    ensures forall j :: i + 1 <= j < 3 ==> SameSlot(s, e, j)
  {
    forall j | i + 1 <= j < 3
      ensures SameSlot(s, e, j)
    {
      assert SameSlot(s, m, j) && SameSlot(m, e, j);
    }
  }

  /** Whether an entry can be restored does not depend on what was done to other slots. */
  lemma RefusalLocal(s: Snapshot, m: Snapshot, i: int, cs: seq<Change>, stations: int)
    requires SameSlot(s, m, i)
    ensures PatchError(m, i, cs, stations) == PatchError(s, i, cs, stations)
  {
  }

  /** The loop of `restore_irrigation_programs` over the sorted backup: it succeeds exactly when every
      entry is acceptable on its own, and otherwise reports the first that is not. */
  method Plan(s: Snapshot, backup: Backup, stations: int) returns (r: Result<(seq<Frame>, Snapshot)>)
    requires IsSnapshot(s, s.frames) && BackupOk(backup)
    ensures |s.blocks| == 3 && |s.programs| == 3
    ensures r.Ok? ==> PlanYields(s, backup, stations, 3, r.value.0, r.value.1)
    ensures r.Ok? <==> AcceptedTo(s, backup, stations, 3)
    ensures r.Err? ==> exists i :: FirstRefusal(s, backup, stations, i, r.error)
  {
    SnapshotSizes(s);
    hide PatchYields, PatchError, IsSnapshot, BackupChanges, Refusal, PlanYields, SameSlot, FirstRefusal, AcceptedTo,
         PlanStep;
    PlanStarts(s, backup, stations);
    var frames: seq<Frame> := [];
    var expected := s;
    for i := 0 to 3
      invariant PlanYields(s, backup, stations, i, frames, expected) && IsSnapshot(expected, expected.frames)
      invariant forall j :: i <= j < 3 ==> SameSlot(s, expected, j)
      invariant AcceptedTo(s, backup, stations, i)
    {
      if i in backup {
        var step := PlanEntry(s, backup, stations, i, frames, expected);
        if step.Err? {
          RefusedAt(s, backup, stations, i, step.error);
          return Err(step.error);
        }
        StillSame(s, backup, stations, expected, step.value.1, i);
        frames, expected := step.value.0, step.value.1;
      } else {
        PlanSkips(s, backup, stations, i, frames, expected);
      }
    }
    r := Ok((frames, expected));
  }

  /** One entry of the loop: patch the expectation reached so far. */
  method PlanEntry(s: Snapshot, backup: Backup, stations: int, i: nat, frames: seq<Frame>, expected: Snapshot)
    returns (r: Result<(seq<Frame>, Snapshot)>)
    requires i in backup && IsSnapshot(expected, expected.frames) && SameSlot(s, expected, i)
    requires PlanYields(s, backup, stations, i, frames, expected)
    ensures r.Err? ==> Refusal(s, backup, stations, i) == Some(r.error)
    ensures r.Ok? ==> Refusal(s, backup, stations, i).None?
    ensures r.Ok? ==> PlanYields(s, backup, stations, i + 1, r.value.0, r.value.1)
    ensures r.Ok? ==> IsSnapshot(r.value.1, r.value.1.frames) && forall j :: j != i ==> SameSlot(expected, r.value.1, j)
  {
    hide PatchYields, PatchError, IsSnapshot, BackupChanges, Refusal, PlanYields;
    var cs := BackupChanges(backup[i], stations);
    RefusalLocal(s, expected, i, cs, stations);
    RefusalOfEntry(s, backup, stations, i);
    var step := Patch(expected, i, cs, stations);
    if step.Err? {
      return Err(step.error);
    }
    YieldsSnapshot(expected, i, cs, stations, step.value.0, step.value.1);
    PlanExtends(s, backup, stations, i, frames, expected, step.value.0, step.value.1);
    r := Ok((frames + step.value.0, step.value.1));
  }

  lemma RefusalOfEntry(s: Snapshot, backup: Backup, stations: int, i: int)
    requires |s.blocks| == 3 && |s.programs| == 3
    ensures Refusal(s, backup, stations, i) ==
              if i in backup then PatchError(s, i, BackupChanges(backup[i], stations), stations) else None
  {
  }

  lemma PlanStarts(s: Snapshot, backup: Backup, stations: int)
    requires |s.blocks| == 3 && |s.programs| == 3
    ensures PlanYields(s, backup, stations, 0, [], s) && AcceptedTo(s, backup, stations, 0)
    ensures forall j :: SameSlot(s, s, j)
  {
  }

  lemma PlanSkips(s: Snapshot, backup: Backup, stations: int, i: nat, ws: seq<Frame>, e: Snapshot)
    requires i !in backup && PlanYields(s, backup, stations, i, ws, e)
    requires |s.blocks| == 3 && |s.programs| == 3
    requires AcceptedTo(s, backup, stations, i)
    ensures PlanYields(s, backup, stations, i + 1, ws, e) && AcceptedTo(s, backup, stations, i + 1)
  {
  }

  lemma PlanExtends(s: Snapshot, backup: Backup, stations: int, i: nat, a: seq<Frame>, m: Snapshot, b: seq<Frame>,
                    e: Snapshot)
    requires i in backup && PlanYields(s, backup, stations, i, a, m)
    requires PatchYields(m, i, BackupChanges(backup[i], stations), stations, b, e)
    ensures PlanYields(s, backup, stations, i + 1, a + b, e)
  {
    hide PatchYields, BackupChanges;
    assert PlanStep(s, backup, stations, i + 1, a, m, b, e);
  }

  /** Only block `i` changed, as patched. */
  ghost predicate PatchedAt(s: Snapshot, i: int, cs: seq<Change>, e: Snapshot) {
    && |s.blocks| == 3 && 0 <= i < 3 && StandardBlock(s.blocks[i]) && AllOk(cs, 12)
    && e.blocks == s.blocks[i := PatchedBlock(s.blocks[i], cs)] && e.extras == s.extras
  }

  lemma YieldsSnapshot(s: Snapshot, i: int, cs: seq<Change>, n: int, ws: seq<Frame>, e: Snapshot)
    requires PatchYields(s, i, cs, n, ws, e)
    ensures IsSnapshot(s, s.frames) && IsSnapshot(e, e.frames) && PatchedAt(s, i, cs, e)
    ensures forall j :: j != i ==> SameSlot(s, e, j)
  {
    hide Content, DecodeBlock, BlockWrites;
  }

  /** The block a restore leaves in slot `j` once the entries below `n` are done. */
  function RestoredBlock(s: Snapshot, backup: Backup, stations: int, n: nat, j: int): seq<NFrame>
    requires |s.blocks| == 3 && 0 <= j < 3 && |s.blocks[j]| == 7
    requires j in backup && j < n ==> AllOk(BackupChanges(backup[j], stations), 12)
  {
    if j in backup && j < n then PatchedBlock(s.blocks[j], BackupChanges(backup[j], stations)) else s.blocks[j]
  }

  ghost predicate AcceptedBelow(s: Snapshot, backup: Backup, stations: int, n: nat) {
    |s.blocks| == 3 && (forall j :: 0 <= j < 3 ==> |s.blocks[j]| == 7)
    && forall i :: i in backup && 0 <= i < n ==>
         0 <= i < 3 && AllOk(BackupChanges(backup[i], stations), 12) && StandardBlock(s.blocks[i])
  }

  lemma {:induction false} PlanBlocks(s: Snapshot, backup: Backup, stations: int, n: nat, ws: seq<Frame>, e: Snapshot)
    requires IsSnapshot(s, s.frames) && n <= 3 && PlanYields(s, backup, stations, n, ws, e)
    ensures AcceptedBelow(s, backup, stations, n)
    ensures IsSnapshot(e, e.frames) && |e.blocks| == 3 && e.extras == s.extras
    ensures forall j :: 0 <= j < 3 ==> e.blocks[j] == RestoredBlock(s, backup, stations, n, j)
    ensures Explains(s, ws, e)
  {
    hide PatchYields, IsSnapshot, BackupChanges, AllOk, PatchedBlock, StandardBlock, Explains;
    SnapshotLengths(s);
    if n == 0 {
      NothingExplained(s);
    } else if n - 1 in backup {
      var m, a, b :| PlanStep(s, backup, stations, n, a, m, b, e) && ws == a + b;
      PlanBlocks(s, backup, stations, n - 1, a, m);
      var cs := BackupChanges(backup[n - 1], stations);
      YieldsSnapshot(m, n - 1, cs, stations, b, e);
      PatchExplained(m, n - 1, cs, stations, b, e);
      ExplainsComposes(s, a, m, b, e);
    } else {
      PlanBlocks(s, backup, stations, n - 1, ws, e);
    }
  }

  lemma SnapshotLengths(s: Snapshot)
    requires IsSnapshot(s, s.frames)
    ensures |s.blocks| == 3 && forall j :: 0 <= j < 3 ==> |s.blocks[j]| == 7
  {
  }

  lemma {:induction false} PlanMovesStore(s: Snapshot, d: Store, tops: seq<int>, backup: Backup, stations: int, n: nat,
                                          ws: seq<Frame>, e: Snapshot)
    requires StoreOk(d) && TopsOk(tops) && Describes(s, d, tops) && n <= 3
    requires PlanYields(s, backup, stations, n, ws, e)
    ensures var d' := ApplyWrites(d, ws);
            && StoreOk(d') && d'.Keys == d.Keys && Describes(e, d', tops)
            && forall key :: key in d && (key.0 >= n || key.0 !in backup) ==> d'[key] == d[key]
  {
    hide PatchYields, Describes, StoreOk;
    if n == 0 {
    } else if n - 1 in backup {
      var m, a, b :| PlanStep(s, backup, stations, n, a, m, b, e) && ws == a + b;
      PlanMovesStore(s, d, tops, backup, stations, n - 1, a, m);
      PatchMovesStore(m, ApplyWrites(d, a), tops, n - 1, BackupChanges(backup[n - 1], stations), stations, b, e);
      ApplyWritesConcat(d, a, b);
    } else {
      PlanMovesStore(s, d, tops, backup, stations, n - 1, ws, e);
    }
  }

  /** Restore, end to end. A controller holding `d` was read as `before`; the planned frames passed the
      pre-write validation; after it applied them, any faithful read parses to the predicted blocks and
      extras - hence the predicted revision - every restored program decodes to the backup on its nine
      writable fields, and no slot outside the backup has changed. */
  lemma RestoreEndToEnd(d: Store, tops: seq<int>, before: Snapshot, backup: Backup, stations: int,
                        ws: seq<Frame>, expected: Snapshot, tops': seq<int>, after: Snapshot)
    requires StoreOk(d) && TopsOk(tops) && Reads(d, tops, before.frames) && IsSnapshot(before, before.frames)
    requires BackupOk(backup) && PlanYields(before, backup, stations, 3, ws, expected)
    requires TopsOk(tops') && tops'[3..] == tops[3..]
    requires var d' := ApplyWrites(d, ws); StoreOk(d') ==> Reads(d', tops', after.frames) && IsSnapshot(after, after.frames)
    ensures |before.blocks| == |expected.blocks| == 3 && Explains(before, ws, expected)
    ensures after.blocks == expected.blocks && after.extras == expected.extras && after.programs == expected.programs
    ensures forall key :: key in d && key.0 !in backup ==> key in ApplyWrites(d, ws) && ApplyWrites(d, ws)[key] == d[key]
    ensures |before.blocks| == |after.blocks| == |before.programs| == |after.programs| == 3
    ensures forall i :: i in backup ==>
              && StandardBlock(before.blocks[i]) && AllOk(BackupChanges(backup[i], stations), 12)
              && after.blocks[i] == PatchedBlock(before.blocks[i], BackupChanges(backup[i], stations))
              && (Matches(after.programs[i], backup[i], before.programs[i], stations) <==>
                    NameFits(Name(backup[i].name), before.blocks[i]))
  {
    hide PlanYields, Reads, Explains, PatchedBlock, DecodeBlock, StoreOk, Content, Matches, NameFits, StandardBlock,
         AllOk;
    var d' := ApplyWrites(d, ws);
    ReadDescribes(d, tops, before.frames, before);
    PlanBlocks(before, backup, stations, 3, ws, expected);
    PlanMovesStore(before, d, tops, backup, stations, 3, ws, expected);
    ReadDescribes(d', tops', after.frames, after);
    DescriptionUnique(after, expected, d', tops', tops);
    forall i | i in backup
      ensures Matches(after.programs[i], backup[i], before.programs[i], stations) <==>
                NameFits(Name(backup[i].name), before.blocks[i])
    {
      BackupRestored(before.blocks[i], backup[i], stations);
    }
  }
}
