/** Laws of `ProgramSnapshot.patch` that relate several calls. */
module PatchLaws {
  import opened Bytes
  import opened Protocol
  import opened Snapshots
  import opened Patching
  import opened Editor
  import Schedule

  lemma PatchedCycle(b: seq<NFrame>, cs: seq<Change>)
    requires StandardBlock(b) && AllOk(cs, 12) && b[2][8] < 5
    ensures StandardBlock(PatchedBlock(b, cs)) && PatchedBlock(b, cs)[2][8] < 5
    decreases |cs|
  {
    PatchedHeads(b, cs);
    if cs != [] {
      var n := |cs| - 1;
      PatchedCycle(b, cs[..n]);
      assert Effect(cs[n], 2, 8).Some? ==> Effect(cs[n], 2, 8).value < 5;
    }
  }

  /** Patching the result again with the same changes is accepted and sends nothing. */
  lemma RepeatedPatchSendsNothing(s: Snapshot, i: int, cs: seq<Change>, n: int, ws: seq<Frame>, e: Snapshot)
    requires PatchYields(s, i, cs, n, ws, e)
    ensures PatchYields(e, i, cs, n, [], e)
  {
    hide Content, DecodeBlock, BlockWrites, KnownExtras, HasBlock, IsExtras, PatchedBlock, StandardBlock, PhaseOk;
    var b := s.blocks[i];
    PatchesCompose(b, cs, []);
    DecodedCycle(b);
    PatchedCycle(b, cs);
    DecodedCycle(PatchedBlock(b, cs));
    UnchangedPatch(e, i, cs, n);
  }

  lemma DecodedCycle(b: seq<NFrame>)
    requires StandardBlock(b)
    ensures ReadableBlock(b) && DecodeBlock(b).cycle == b[2][8] as int
  {
  }

  /** Two accepted patches in a row leave the slot as one patch with all the changes would. */
  lemma PatchInTwoSteps(s: Snapshot, i: int, cs: seq<Change>, ds: seq<Change>, n: int,
                        a: seq<Frame>, m: Snapshot, b: seq<Frame>, e: Snapshot)
    requires PatchYields(s, i, cs, n, a, m) && PatchYields(m, i, ds, n, b, e)
    ensures AllOk(cs + ds, 12) && 0 <= i < 3 && |s.blocks| == |e.blocks| == 3 && |s.blocks[i]| == 7
    ensures e.blocks == s.blocks[i := PatchedBlock(s.blocks[i], cs + ds)] && e.extras == s.extras
  {
    hide Content, DecodeBlock, BlockWrites, KnownExtras, HasBlock, IsExtras, PatchedBlock, PhaseOk;
    PatchesCompose(s.blocks[i], cs, ds);
  }

  /** Whatever was patched, an interval program comes out with a phase inside its period. */
  lemma PatchedPhase(s: Snapshot, i: int, cs: seq<Change>, n: int, ws: seq<Frame>, e: Snapshot)
    requires PatchYields(s, i, cs, n, ws, e)
    ensures 0 <= i < 3 && |e.programs| == 3
    ensures e.programs[i].cycle == 4 ==> Schedule.IntervalPhaseValid(e.programs[i].periodLength, e.programs[i].synchroDay)
  {
    hide Content, BlockWrites, KnownExtras, HasBlock, IsExtras, PatchedBlock;
  }
}
