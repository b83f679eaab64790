/** `ProgramSnapshot.patch` on whole snapshots: the frames to send and the state to expect. */
module Editor {
  import opened Options
  import opened Bytes
  import opened Protocol
  import opened Snapshots
  import opened Patching

  function Splice(f: NFrame, offset: nat, data: Frame): (r: NFrame)
    requires 4 <= offset && offset + |data| <= |f|
    ensures |r| == |f|
    ensures forall o :: 0 <= o < |f| ==> r[o] == if offset <= o < offset + |data| then data[o - offset] else f[o]
  {
    f[..offset] + data + f[offset + |data|..]
  }

  // ---- overwriting the bytes of one block ----------------------------------

  lemma IsPatchedChunk(b: seq<NFrame>, c: Change, k: int, f: NFrame)
    requires StandardBlock(b) && ChangeOk(c, 12) && 0 <= k < 7 && |f| == |b[k]|
    requires forall o :: 0 <= o < |f| ==> f[o] == if Effect(c, k, o).Some? then Effect(c, k, o).value else b[k][o]
    ensures PatchedBlock(b, [c])[k] == f
  {
    forall o
      ensures EffectOf([c], k, o) == Effect(c, k, o)
    {
      assert [c][..0] == [];
    }
  }

  lemma IsPatchedBlock(b: seq<NFrame>, c: Change, r: seq<NFrame>)
    requires StandardBlock(b) && ChangeOk(c, 12) && |r| == 7
    requires forall k :: 0 <= k < 7 ==> |r[k]| == |b[k]|
    requires forall k, o :: 0 <= k < 7 && 0 <= o < |b[k]| ==>
               r[k][o] == if Effect(c, k, o).Some? then Effect(c, k, o).value else b[k][o]
    ensures r == PatchedBlock(b, [c])
  {
    forall k | 0 <= k < 7
      ensures r[k] == PatchedBlock(b, [c])[k]
    {
      IsPatchedChunk(b, c, k, r[k]);
    }
  }

  lemma SlotSpliced(f: NFrame, slot: nat, data: Frame)
    requires |f| == 20 && slot < 8 && |data| == 2
    ensures var g := Splice(f, 4 + 2 * slot, data);
            && g[4 + 2 * slot..6 + 2 * slot] == data
            && (forall k :: 0 <= k < slot ==> g[4 + 2 * k..6 + 2 * k] == f[4 + 2 * k..6 + 2 * k])
            && (forall o :: (0 <= o < 4 || 6 + 2 * slot <= o < 20) ==> g[o] == f[o])
  {
  }

  predicate SlotOk(slot: Option<int>) {
    slot.Some? ==> 0 <= slot.value <= 1439
  }

  function MinutesOf(slot: Option<int>): (m: int)
    requires SlotOk(slot)
    ensures 0 <= m < 0x1_0000
  {
    if slot.Some? then slot.value else DISABLED_START_TIME
  }

  /** The first `n` slots are valid and written, the rest of the chunk is as before. */
  ghost predicate SlotsWritten(was: NFrame, chunk: NFrame, slots: seq<Option<int>>, n: nat) {
    && |was| == |chunk| == 20 && n <= 8 <= |slots|
    && (forall k :: 0 <= k < n ==> SlotOk(slots[k]) && chunk[4 + 2 * k..6 + 2 * k] == Be16(MinutesOf(slots[k])))
    && forall o :: (0 <= o < 4 || 4 + 2 * n <= o < 20) ==> chunk[o] == was[o]
  }

  lemma SlotWritten(was: NFrame, chunk: NFrame, slots: seq<Option<int>>, n: nat)
    requires SlotsWritten(was, chunk, slots, n) && n < 8 && SlotOk(slots[n])
    ensures SlotsWritten(was, Splice(chunk, 4 + 2 * n, Be16(MinutesOf(slots[n]))), slots, n + 1)
  {
    hide Splice, Be16, SlotOk, MinutesOf;
    SlotSpliced(chunk, n, Be16(MinutesOf(slots[n])));
  }

  method WriteStartTimes(b: seq<NFrame>, slots: seq<Option<int>>) returns (r: Result<seq<NFrame>>)
    requires StandardBlock(b)
    ensures r.Ok? <==> ChangeOk(StartTimes(slots), 12)
    ensures r.Ok? ==> r.value == PatchedBlock(b, [StartTimes(slots)])
    ensures r.Err? ==> r.error == ValueError
  {
    if |slots| != 8 {
      return Err(ValueError);
    }
    var chunk := b[3];
    for slot := 0 to 8
      invariant SlotsWritten(b[3], chunk, slots, slot)
    {
      if slots[slot].Some? && !(0 <= slots[slot].value <= 1439) {
        return Err(ValueError);
      }
      hide SlotsWritten, Splice, Be16;
      SlotWritten(b[3], chunk, slots, slot);
      chunk := Splice(chunk, 4 + 2 * slot, Be16(MinutesOf(slots[slot])));
    }
    r := Ok(b[3 := chunk]);
    StartTimesWritten(b, slots, chunk);
  }

  lemma StartTimesWritten(b: seq<NFrame>, slots: seq<Option<int>>, chunk: NFrame)
    requires StandardBlock(b) && |slots| == 8 && SlotsWritten(b[3], chunk, slots, 8)
    ensures ChangeOk(StartTimes(slots), 12) && b[3 := chunk] == PatchedBlock(b, [StartTimes(slots)])
  {
    assert ChangeOk(StartTimes(slots), 12);
    forall o | 0 <= o < 20
      ensures chunk[o] == if o >= 4 then Effect(StartTimes(slots), 3, o).value else b[3][o]
    {
      if o >= 4 {
        var k := (o - 4) / 2;
        assert SlotOk(slots[k]) && MinutesOf(slots[k]) == SlotMinutes(slots, k);
        assert chunk[o] == chunk[4 + 2 * k..6 + 2 * k][(o - 4) % 2];
      }
    }
    IsPatchedBlock(b, StartTimes(slots), b[3 := chunk]);
  }

  /** Chunk and offset of a 0-based station's duration. */
  function DurationPlace(station: int): (p: (int, int))
    requires 0 <= station < 12
    ensures 4 <= p.0 < 7 && 4 <= p.1 && p.1 + 3 <= StandardLength(p.0)
  {
    if station < 5 then (4, 4 + station * 3)
    else if station < 10 then (5, 4 + (station - 5) * 3)
    else (6, 4 + (station - 10) * 3)
  }

  lemma AddDuration(b: seq<NFrame>, m: map<int, int>, s: int, seconds: int)
    requires StandardBlock(b) && ChangeOk(StationDurations(m), 12)
    requires 1 <= s <= 12 && 0 <= seconds <= 0xFF_FFFF
    ensures var p := DurationPlace(s - 1);
            var cur := PatchedBlock(b, [StationDurations(m)]);
            && StandardBlock(cur) && ChangeOk(StationDurations(m[s := seconds]), 12)
            && cur[p.0 := Splice(cur[p.0], p.1, Be24(seconds))] == PatchedBlock(b, [StationDurations(m[s := seconds])])
  {
    var c, d := StationDurations(m), StationDurations(m[s := seconds]);
    var p, cur := DurationPlace(s - 1), PatchedBlock(b, [c]);
    var r := cur[p.0 := Splice(cur[p.0], p.1, Be24(seconds))];
    forall k, o | 0 <= k < 7 && 0 <= o < |b[k]|
      ensures r[k][o] == if Effect(d, k, o).Some? then Effect(d, k, o).value else b[k][o]
    {
      SingleEffect(b, c, k, o);
      DurationWindow(m, s, seconds, k, o);
    }
    IsPatchedBlock(b, d, r);
  }

  lemma SingleEffect(b: seq<NFrame>, c: Change, k: int, o: int)
    requires |b| == 7 && ChangeOk(c, 12) && 0 <= k < 7 && 0 <= o < |b[k]|
    ensures PatchedBlock(b, [c])[k][o] == if Effect(c, k, o).Some? then Effect(c, k, o).value else b[k][o]
  {
    assert [c][..0] == [];
    assert EffectOf([c], k, o) == Effect(c, k, o);
  }

  lemma DurationWindow(m: map<int, int>, s: int, seconds: int, k: int, o: int)
    requires ChangeOk(StationDurations(m), 12) && 1 <= s <= 12 && 0 <= seconds <= 0xFF_FFFF
    requires 0 <= k < 7 && 0 <= o < StandardLength(k)
    ensures var p := DurationPlace(s - 1);
            Effect(StationDurations(m[s := seconds]), k, o)
              == if k == p.0 && p.1 <= o < p.1 + 3 then Some(Be24(seconds)[o - p.1])
                 else Effect(StationDurations(m), k, o)
  {
  }

  method WriteDurations(b: seq<NFrame>, m: map<int, int>, stations: int) returns (r: Result<seq<NFrame>>)
    requires StandardBlock(b) && 1 <= stations <= 12
    ensures r.Ok? <==> ChangeOk(StationDurations(m), stations)
    ensures r.Ok? ==> r.value == PatchedBlock(b, [StationDurations(m)])
    ensures r.Err? ==> r.error == ValueError
  {
    var rest, blocks := m.Keys, b;
    ghost var done: map<int, int> := map[];
    IsPatchedBlock(b, StationDurations(done), b);
    while rest != {}
      invariant rest <= m.Keys && done == Without(m, rest)
      invariant ChangeOk(StationDurations(done), stations)
      invariant blocks == PatchedBlock(b, [StationDurations(done)])
      decreases |rest|
    {
      SomeMember(rest);
      var station :| station in rest;
      hide PatchedBlock, StandardBlock, DurationPlace, Splice;
      var seconds := m[station];
      if !(1 <= station <= stations) || !(0 <= seconds <= 0xFF_FFFF) {
        return Err(ValueError);
      }
      AddDuration(b, done, station, seconds);
      var place := DurationPlace(station - 1);
      blocks := blocks[place.0 := Splice(blocks[place.0], place.1, Be24(seconds))];
      done := done[station := seconds];
      rest := rest - {station};
    }
    assert done == m;
    r := Ok(blocks);
  }

  function Without(m: map<int, int>, keys: set<int>): map<int, int> {
    map k | k in m && k !in keys :: m[k]
  }

  /** One iteration of the loop over `changes`. */
  method ApplyChange(b: seq<NFrame>, c: Change, stations: int) returns (r: Result<seq<NFrame>>)
    requires StandardBlock(b) && 1 <= stations <= 12
    ensures r.Ok? <==> ChangeOk(c, stations)
    ensures r.Ok? ==> r.value == PatchedBlock(b, [c])
    ensures r.Err? ==> r.error == ValueError
  {
    if c.StartTimes? {
      r := WriteStartTimes(b, c.slots);
    } else if c.StationDurations? {
      r := WriteDurations(b, c.seconds, stations);
    } else if !ChangeOk(c, stations) {
      r := Err(ValueError);
    } else {
      var blocks := b;
      match c {
        case Name(text) =>
          var encoded := Pad(text, 31);
          blocks := b[0 := Splice(b[0], 4, encoded[..16])][1 := Splice(b[1], 4, encoded[16..])];
        case InterStationDelay(v) => blocks := b[2 := Splice(b[2], 4, Be16(v))];
        case WaterBudget(v) => blocks := b[2 := Splice(b[2], 6, Be16(v))];
        case Cycle(v) => blocks := b[2 := Splice(b[2], 8, [v])];
        case WeekDays(v) => blocks := b[2 := Splice(b[2], 9, [v])];
        case PeriodLength(v) => blocks := b[2 := Splice(b[2], 10, [v])];
        case SynchroDay(v) => blocks := b[2 := Splice(b[2], 11, [v])];
        case _ =>
      }
      IsPatchedBlock(b, c, blocks);
      r := Ok(blocks);
    }
  }

  // ---- the expected response -------------------------------------------------

  /** The two blocks differ only in payload bytes. */
  ghost predicate SameHeads(was: seq<NFrame>, now: seq<NFrame>) {
    |was| == |now| == 7 && forall k :: 0 <= k < 7 ==> |was[k]| == |now[k]| && was[k][..4] == now[k][..4]
  }

  /** A response frame of slot `i` rebuilt around its new payload; every other frame as captured. */
  function Rebuilt(raw: Frame, i: int, top: int, now: seq<NFrame>): Frame
    requires |now| == 7
  {
    var f := Normalize(raw);
    if f.Some? && f.value[3] == 0x10 + i && 0 <= top - f.value[2] < 7
    then f.value[..4] + now[top - f.value[2]][4..]
    else raw
  }

  lemma RebuiltNormal(c: set<NFrame>, i: int, was: seq<NFrame>, top: int, now: seq<NFrame>, raw: Frame)
    requires IsBlock(c, i, was, top) && SameHeads(was, now)
    requires var f := Normalize(raw); f.Some? ==> f.value in c
    ensures var f, g := Normalize(raw), Normalize(Rebuilt(raw, i, top, now));
            if f.Some? && f.value[3] == 0x10 + i
            then 0 <= top - f.value[2] < 7 && g == Some(WithId(now[top - f.value[2]], f.value[2]))
            else g == f
  {
    hide ReadableBlock, IsBlock;
    var f := Normalize(raw);
    if f.Some? && f.value[3] == 0x10 + i {
      var k := top - f.value[2];
      assert f.value in SlotOf(c, i);
      SlotFragment(c, i, was, top, f.value);
      assert f.value == WithId(was[k], f.value[2]);
      var head, g := f.value[..4], WithId(now[k], f.value[2]);
      assert was[k][..4] == now[k][..4];
      assert forall o :: 0 <= o < 4 ==> was[k][o] == was[k][..4][o] && now[k][o] == now[k][..4][o];
      assert head + now[k][4..] == g;
    }
  }

  function RebuiltFrames(frames: seq<Frame>, i: int, top: int, now: seq<NFrame>): (r: seq<Frame>)
    requires |now| == 7
    ensures |r| == |frames| && forall k :: 0 <= k < |frames| ==> r[k] == Rebuilt(frames[k], i, top, now)
  {
    seq(|frames|, k requires 0 <= k < |frames| => Rebuilt(frames[k], i, top, now))
  }

  /** Outside the edited slot the rebuilt response says the same. */
  lemma RebuiltElsewhere(frames: seq<Frame>, i: int, was: seq<NFrame>, top: int, now: seq<NFrame>, f: NFrame)
    requires IsBlock(Content(frames), i, was, top) && |now| == 7 && SameHeads(was, now)
    requires f[3] != 0x10 + i
    ensures f in Content(RebuiltFrames(frames, i, top, now)) <==> f in Content(frames)
  {
  }

  lemma SameKey(c: set<NFrame>, i: int, was: seq<NFrame>, top: int, now: seq<NFrame>, k: int)
    requires IsBlock(c, i, was, top) && |now| == 7 && SameHeads(was, now)
    ensures 0 <= k < 7 ==> now[k][2] == k && now[k][3] == 0x10 + i
  {
  }

  /** In the edited slot it spells the new block, numbered as before. */
  lemma RebuiltSlot(frames: seq<Frame>, i: int, was: seq<NFrame>, top: int, now: seq<NFrame>)
    requires IsBlock(Content(frames), i, was, top) && |now| == 7 && SameHeads(was, now) && ReadableBlock(now)
    ensures IsBlock(Content(RebuiltFrames(frames, i, top, now)), i, now, top)
  {
    hide Normalize, SameHeads, Rebuilt, Content, ReadableBlock;
    var c, e := Content(frames), RebuiltFrames(frames, i, top, now);
    forall k | 0 <= k < 7
      ensures HasChunk(SlotOf(Content(e), i), now, top, k)
      ensures now[k][2] == k && now[k][3] == 0x10 + i
    {
      assert HasChunk(SlotOf(c, i), was, top, k);
      var j := FromContent(frames, WithId(was[k], top - k));
      RebuiltNormal(c, i, was, top, now, frames[j]);
      ContentMember(e, e[j]);
      SameKey(c, i, was, top, now, k);
    }
    forall f | f in SlotOf(Content(e), i)
      ensures 0 <= top - f[2] < 7 && f == WithId(now[top - f[2]], f[2])
    {
      var j := FromContent(e, f);
      if Normalize(frames[j]).Some? { ContentMember(frames, frames[j]); }
      RebuiltNormal(c, i, was, top, now, frames[j]);
    }
  }

  /** The snapshot with one block replaced and nothing else. */
  function PatchedSnapshot(s: Snapshot, i: int, top: int, now: seq<NFrame>): Snapshot
    requires 0 <= i < 3 && |s.blocks| == 3 && |s.programs| == 3 && |now| == 7 && ReadableBlock(now)
  {
    Snapshot(RebuiltFrames(s.frames, i, top, now), s.blocks[i := now], s.extras, s.programs[i := DecodeBlock(now)])
  }

  lemma PatchedSnapshotDenoted(s: Snapshot, i: int, top: int, now: seq<NFrame>)
    requires IsSnapshot(s, s.frames) && 0 <= i < 3 && IsBlock(Content(s.frames), i, s.blocks[i], top)
    requires |now| == 7 && ReadableBlock(now) && SameHeads(s.blocks[i], now)
    ensures var e := PatchedSnapshot(s, i, top, now); IsSnapshot(e, e.frames)
  {
    hide Content, DecodeBlock, SameHeads, ReadableBlock, StrictlySorted;
    var e := PatchedSnapshot(s, i, top, now);
    var c, d := Content(s.frames), Content(e.frames);
    forall f: NFrame | f[3] != 0x10 + i
      ensures f in d <==> f in c
    {
      RebuiltElsewhere(s.frames, i, s.blocks[i], top, now, f);
    }
    forall j | 0 <= j < 3
      ensures HasBlock(d, j, e.blocks[j])
    {
      if j == i {
        RebuiltSlot(s.frames, i, s.blocks[i], top, now);
      } else {
        assert SlotOf(d, j) == SlotOf(c, j);
        assert HasBlock(c, j, s.blocks[j]);
        var t :| IsBlock(c, j, s.blocks[j], t);
        assert IsBlock(d, j, s.blocks[j], t);
      }
    }
    assert IsExtras(d, e.extras);
  }

  // ---- additional slots --------------------------------------------------------

  function HiddenGroup(extras: seq<NFrame>, slot: int): (r: seq<NFrame>)
    ensures forall f :: f in r <==> f in extras && f[3] == 0x10 + slot
  {
    if extras == [] then []
    else (if extras[0][3] == 0x10 + slot then [extras[0]] else []) + HiddenGroup(extras[1..], slot)
  }

  predicate KnownGroup(ordered: seq<NFrame>) {
    && |ordered| == 7
    && (forall k :: 0 <= k < 7 ==> ordered[k][2] as int == ordered[0][2] as int - k)
    && StandardBlock(ordered)
  }

  /** `additional_programs` accepts: no hidden program slot at all, or all nine of 3-11 well formed. */
  predicate KnownExtras(extras: seq<NFrame>) {
    || (forall f :: f in extras ==> f[3] / 16 != 1)
    || ((forall f :: f in extras && f[3] / 16 == 1 ==> 3 <= f[3] % 16 <= 11)
        && forall slot :: 3 <= slot <= 11 ==> KnownGroup(SortById(HiddenGroup(extras, slot))))
  }

  // ---- the patch ----------------------------------------------------------------

  /** One write frame: opcode, payload length, chunk number, program key, payload. */
  function WriteFrame(f: NFrame, chunk: int): (w: Frame)
    requires 0 <= chunk < 7 && |f| == StandardLength(chunk)
    ensures |w| == |f|
  {
    [if chunk < 2 then 0x2F else 0x37, |f| - 2, if chunk < 2 then chunk else chunk - 2, f[3]] + f[4..]
  }

  function BlockWrites(b: seq<NFrame>): (w: seq<Frame>)
    requires StandardBlock(b)
    ensures |w| == 7
  {
    seq(7, k requires 0 <= k < 7 => WriteFrame(b[k], k))
  }

  predicate PhaseOk(b: seq<NFrame>)
    requires StandardBlock(b)
  {
    b[2][8] == 4 ==> b[2][10] != 0 && b[2][11] < b[2][10]
  }

  /** Why a patch is refused, in the order the code looks; `None` when it is accepted. */
  ghost function PatchError(s: Snapshot, i: int, cs: seq<Change>, stations: int): Option<Error>
    requires |s.blocks| == 3 && |s.programs| == 3
  {
    if !KnownExtras(s.extras) then Some(InvalidSnapshot)
    else if !(0 <= i < 3) || !(1 <= stations <= 12) then Some(ValueError)
    else if exists k :: 0 <= k < |cs| && cs[k].Unsupported? then Some(ValueError)
    else if !(0 <= s.programs[i].cycle < 5) then Some(InvalidSnapshot)
    else if !StandardBlock(s.blocks[i]) then Some(InvalidSnapshot)
    else if !AllOk(cs, stations) then Some(ValueError)
    else if !PhaseOk(PatchedBlock(s.blocks[i], cs)) then Some(InvalidSnapshot)
    else None
  }

  /** The accepted outcome: frames to send, and the snapshot to expect afterwards. */
  ghost predicate PatchYields(s: Snapshot, i: int, cs: seq<Change>, stations: int, writes: seq<Frame>, e: Snapshot) {
    && IsSnapshot(s, s.frames) && PatchError(s, i, cs, stations).None?
    && var b := PatchedBlock(s.blocks[i], cs);
    && StandardBlock(b)
    && writes == (if b == s.blocks[i] then [] else BlockWrites(b))
    && (b == s.blocks[i] ==> e == s)
    && IsSnapshot(e, e.frames)
    && e.blocks == s.blocks[i := b] && e.extras == s.extras && e.programs == s.programs[i := DecodeBlock(b)]
    && |e.frames| == |s.frames|
    && forall k :: 0 <= k < |s.frames| && e.frames[k] != s.frames[k] ==>
         Normalize(s.frames[k]).Some? && Normalize(s.frames[k]).value[3] == 0x10 + i
  }

  lemma PatchedHeads(b: seq<NFrame>, cs: seq<Change>)
    requires StandardBlock(b) && forall j :: 0 <= j < |cs| ==> ChangeOk(cs[j], 12)
    ensures SameHeads(b, PatchedBlock(b, cs)) && StandardBlock(PatchedBlock(b, cs))
  {
  }

  /** The loop over the dictionary entries. */
  method ApplyChanges(b: seq<NFrame>, cs: seq<Change>, stations: int) returns (r: Result<seq<NFrame>>)
    requires StandardBlock(b) && 1 <= stations <= 12
    ensures r.Ok? <==> AllOk(cs, stations)
    ensures r.Ok? ==> r.value == PatchedBlock(b, cs)
    ensures r.Err? ==> r.error == ValueError
  {
    var blocks := b;
    EmptyPatch(b);
    for n := 0 to |cs|
      invariant AllOk(cs[..n], stations) && StandardBlock(blocks)
      invariant blocks == PatchedBlock(b, cs[..n])
    {
      hide StandardBlock, PatchedBlock, ChangeOk;
      var step := ApplyChange(blocks, cs[n], stations);
      if step.Err? {
        return Err(ValueError);
      }
      PatchStep(b, cs, n, stations);
      blocks := step.value;
    }
    assert cs[..|cs|] == cs;
    r := Ok(blocks);
  }

  lemma PatchStep(b: seq<NFrame>, cs: seq<Change>, n: nat, stations: int)
    requires StandardBlock(b) && n < |cs| && AllOk(cs[..n], stations) && ChangeOk(cs[n], stations)
    ensures AllOk(cs[..n + 1], stations)
    ensures PatchedBlock(PatchedBlock(b, cs[..n]), [cs[n]]) == PatchedBlock(b, cs[..n + 1])
    ensures StandardBlock(PatchedBlock(b, cs[..n + 1]))
  {
    hide PatchedBlock, StandardBlock;
    assert cs[..n + 1] == cs[..n] + [cs[n]];
    var all := cs[..n + 1];
    forall k | 0 <= k < |all|
      ensures ChangeOk(all[k], stations) && ChangeOk(all[k], 12)
    {
      assert all[k] == if k < n then cs[..n][k] else cs[n];
    }
    StandardLengths(b);
    PatchesCompose(b, cs[..n], [cs[n]]);
    PatchedHeads(b, cs[..n + 1]);
  }

  lemma StandardLengths(b: seq<NFrame>)
    requires StandardBlock(b)
    ensures |b| == 7
  {
  }

  /** `ProgramSnapshot.patch`. */
  method Patch(s: Snapshot, i: int, cs: seq<Change>, stations: int) returns (r: Result<(seq<Frame>, Snapshot)>)
    requires IsSnapshot(s, s.frames)
    ensures r.Err? <==> PatchError(s, i, cs, stations).Some?
    ensures r.Err? ==> Some(r.error) == PatchError(s, i, cs, stations)
    ensures r.Ok? ==> PatchYields(s, i, cs, stations, r.value.0, r.value.1)
  {
    hide KnownExtras, Content, DecodeBlock, PatchedBlock, HasBlock, IsExtras;
    if !KnownExtras(s.extras) {
      return Err(InvalidSnapshot);
    }
    if !(0 <= i < 3) || !(1 <= stations <= 12) {
      return Err(ValueError);
    }
    if exists k :: 0 <= k < |cs| && cs[k].Unsupported? {
      return Err(ValueError);
    }
    if !(0 <= s.programs[i].cycle < 5) || !StandardBlock(s.blocks[i]) {
      return Err(InvalidSnapshot);
    }
    var patched := ApplyChanges(s.blocks[i], cs, stations);
    if patched.Err? {
      return Err(ValueError);
    }
    var block := patched.value;
    PatchedHeads(s.blocks[i], cs);
    if !PhaseOk(block) {
      return Err(InvalidSnapshot);
    }
    if block == s.blocks[i] {
      UnchangedPatch(s, i, cs, stations);
      return Ok(([], s));
    }
    var writes := BlockWrites(block);
    var expected := Expect(s, i, block);
    ChangedPatch(s, i, cs, stations, expected);
    r := Ok((writes, expected));
  }

  lemma UnchangedPatch(s: Snapshot, i: int, cs: seq<Change>, stations: int)
    requires IsSnapshot(s, s.frames) && PatchError(s, i, cs, stations).None?
    requires PatchedBlock(s.blocks[i], cs) == s.blocks[i]
    ensures PatchYields(s, i, cs, stations, [], s)
  {
    hide PatchedBlock, DecodeBlock, Content;
    assert s.blocks[i := s.blocks[i]] == s.blocks;
    assert s.programs[i := s.programs[i]] == s.programs;
  }

  lemma ChangedPatch(s: Snapshot, i: int, cs: seq<Change>, stations: int, e: Snapshot)
    requires IsSnapshot(s, s.frames) && PatchError(s, i, cs, stations).None?
    requires PatchedBlock(s.blocks[i], cs) != s.blocks[i] && StandardBlock(PatchedBlock(s.blocks[i], cs))
    requires IsSnapshot(e, e.frames)
    requires exists top :: e == PatchedSnapshot(s, i, top, PatchedBlock(s.blocks[i], cs))
    ensures PatchYields(s, i, cs, stations, BlockWrites(PatchedBlock(s.blocks[i], cs)), e)
  {
    hide PatchedBlock, DecodeBlock, Content, IsSnapshot, PhaseOk;
  }

  /** Rebuilds the response around the patched block and parses it again. */
  method Expect(s: Snapshot, i: int, block: seq<NFrame>) returns (e: Snapshot)
    requires IsSnapshot(s, s.frames) && 0 <= i < 3 && |block| == 7
    requires SameHeads(s.blocks[i], block) && ReadableBlock(block)
    ensures IsSnapshot(e, e.frames)
    ensures exists top :: e == PatchedSnapshot(s, i, top, block)
  {
    hide Content, SameHeads, ReadableBlock, DecodeBlock, IsSnapshot, IsBlock, Rebuilt, ProgramComplete;
    SnapshotSizes(s);
    ghost var t := TopOf(s, i);
    var frags := Fragments(s.frames, i);
    BlockIsComplete(s.frames, i, s.blocks[i], t);
    NonEmptyWhenComplete(frags);
    var first := MaxId(frags);
    var frames: seq<Frame> := [];
    for k := 0 to |s.frames|
      invariant |frames| == k
      invariant forall j :: 0 <= j < k ==> frames[j] == Rebuilt(s.frames[j], i, first, block)
    {
      frames := frames + [Rebuilt(s.frames[k], i, first, block)];
    }
    assert frames == RebuiltFrames(s.frames, i, first, block);
    PatchedSnapshotDenoted(s, i, first, block);
    var parsed := FromFrames(frames);
    e := parsed.value;
    SameFrames(e, frames);
    SnapshotDependsOnContent(e, frames, PatchedSnapshot(s, i, first, block), frames);
  }

  ghost function TopOf(s: Snapshot, i: int): (t: int)
    requires IsSnapshot(s, s.frames) && 0 <= i < 3
    ensures IsBlock(Content(s.frames), i, s.blocks[i], t)
  {
    assert HasBlock(Content(s.frames), i, s.blocks[i]);
    var t :| IsBlock(Content(s.frames), i, s.blocks[i], t);
    t
  }
}
