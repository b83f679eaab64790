/** Writing a whole program: `normalize_irrigation_program_for_write` and `pack_set_irrigation_program`. */
module Packing {
  import opened Options
  import opened Bytes
  import opened Calendar
  import opened Protocol
  import opened Snapshots
  import opened Editor
  import opened PatchMeaning
  import Device
  import Replay
  import Schedule

  /** `datetime.date`: years 1 to 9999. */
  predicate PythonDate(d: Date) {
    ValidDate(d) && d.year <= 9999
  }

  function PadSlots(slots: seq<Option<int>>): (r: seq<Option<int>>)
    requires |slots| <= 8
    ensures |r| == 8
  {
    slots + seq(8 - |slots|, _ => None)
  }

  function PadDurations(durations: seq<int>, n: nat): (r: seq<int>)
    requires |durations| <= n
    ensures |r| == n
  {
    durations + seq(n - |durations|, _ => 0)
  }

  /** The checks common to all cycles. */
  predicate Storable(p: Program, maxStations: int) {
    && 0 <= p.interStationDelay <= 0xFFFF && 0 <= p.waterBudget <= 0xFFFF
    && 0 <= p.cycle <= 0xFF && 0 <= p.weekDays <= 0xFF && 0 <= p.periodLength <= 0xFF && 0 <= p.synchroDay <= 0xFF
    && |p.startTimes| <= 8
    && (forall k :: 0 <= k < |p.startTimes| && p.startTimes[k].Some? ==> 0 <= p.startTimes[k].value < 1440)
    && 1 <= maxStations <= 12 && |p.durations| <= maxStations
    && (forall k :: 0 <= k < |p.durations| ==> 0 <= p.durations[k] <= 0xFF_FFFF)
  }

  /** `normalize_irrigation_program_for_write`. */
  function NormalizeForWrite(p: Program, today: Date, maxStations: int): (r: Result<Program>)
    requires ValidDate(today) && (p.periodStart.Some? ==> ValidDate(p.periodStart.value))
    ensures r.Ok? ==> Storable(r.value, maxStations) && |r.value.startTimes| == 8 && |r.value.durations| == maxStations
    ensures r.Err? ==> r.error == ValueError
    ensures r.Ok? && p.cycle == 4 ==> r.value.synchroDay < r.value.periodLength
    ensures r.Ok? ==> r.value.name <= p.name && |r.value.name| == if |p.name| <= 31 then |p.name| else 31
  {
    if !Storable(p, maxStations) || (p.cycle == 4 && p.periodLength < 1) then Err(ValueError)
    else
      var synchroDay := if p.cycle == 4 && p.periodStart.Some?
                        then Schedule.Countdown(DayNumber(p.periodStart.value), p.periodLength, DayNumber(today))
                        else p.synchroDay;
      if p.cycle == 4 && !(0 <= synchroDay < p.periodLength) then Err(ValueError)
      else
        Ok(p.(name := if |p.name| <= 31 then p.name else p.name[..31], synchroDay := synchroDay,
              startTimes := PadSlots(p.startTimes), durations := PadDurations(p.durations, maxStations)))
  }

  /** Normalising is idempotent on the same day, and an anchor is turned into the least number of days to a
      day of its interval. */
  lemma NormalizedOnce(p: Program, today: Date, maxStations: int, d: nat)
    requires ValidDate(today) && (p.periodStart.Some? ==> ValidDate(p.periodStart.value))
    requires NormalizeForWrite(p, today, maxStations).Ok?
    ensures var n := NormalizeForWrite(p, today, maxStations).value;
            && NormalizeForWrite(n, today, maxStations) == Ok(n)
            && (p.cycle == 4 && p.periodStart.Some? ==>
                  var away := DayNumber(today) - DayNumber(p.periodStart.value);
                  && (away + n.synchroDay) % p.periodLength == 0
                  && ((away + d) % p.periodLength == 0 ==> n.synchroDay <= d))
  {
    var n := NormalizeForWrite(p, today, maxStations).value;
    if p.cycle == 4 && p.periodStart.Some? {
      Schedule.CountdownLeast(DayNumber(p.periodStart.value), p.periodLength, DayNumber(today), d);
      assert DayNumber(today) + n.synchroDay - DayNumber(p.periodStart.value)
          == DayNumber(today) - DayNumber(p.periodStart.value) + n.synchroDay;
    }
    assert PadSlots(n.startTimes) == n.startTimes && PadDurations(n.durations, maxStations) == n.durations;
  }

  /** What normalising does not touch, and that what it completes it only extends: absent slots are disabled,
      absent stations do not run. It fails exactly on unstorable programs and on a missing or impossible phase. */
  lemma NormalizedExtends(p: Program, today: Date, maxStations: int)
    requires ValidDate(today) && (p.periodStart.Some? ==> ValidDate(p.periodStart.value))
    ensures NormalizeForWrite(p, today, maxStations).Ok? <==>
              Storable(p, maxStations)
              && (p.cycle == 4 ==> p.periodLength >= 1 && (p.periodStart.Some? || p.synchroDay < p.periodLength))
    ensures NormalizeForWrite(p, today, maxStations).Ok? ==>
              var n := NormalizeForWrite(p, today, maxStations).value;
              && n == p.(name := n.name, synchroDay := n.synchroDay, startTimes := n.startTimes, durations := n.durations)
              && (|p.name| <= 31 ==> n.name == p.name) && p.startTimes <= n.startTimes && p.durations <= n.durations
              && (forall k :: |p.startTimes| <= k < 8 ==> n.startTimes[k] == None)
              && (forall k :: |p.durations| <= k < maxStations ==> n.durations[k] == 0)
              && (p.cycle != 4 || p.periodStart.None? ==> n.synchroDay == p.synchroDay)
  {
  }

  /** Whatever a controller with `stations` outputs can report, it can be sent again: the decoded values of any block are
      storable, and normalising them fails only on an interval without a phase and changes nothing but a name of 32 bytes. */
  lemma DecodedStorable(b: seq<NFrame>, stations: int, today: Date)
    requires StandardBlock(b) && 1 <= stations <= 12 && ValidDate(today)
    ensures ReadableBlock(b)
    ensures var d := DecodeBlock(b);
            var p := d.(durations := d.durations[..stations]);
            var r := NormalizeForWrite(p, today, stations);
            && Storable(p, stations)
            && (r.Ok? <==> (p.cycle == 4 ==> p.synchroDay < p.periodLength))
            && (r.Ok? ==> r.value == p.(name := r.value.name))
  {
    Device.StandardIsReadable(b);
    hide StandardBlock, ReadableBlock;
    var d := DecodeBlock(b);
    var p := d.(durations := d.durations[..stations]);
    assert PadSlots(p.startTimes) == p.startTimes && PadDurations(p.durations, stations) == p.durations;
  }

  // ---- packing --------------------------------------------------------------------

  /** The header of write frame `k`. */
  function Head(index: int, k: int): (h: Frame)
    requires 0 <= index < 3 && 0 <= k < 7
    ensures |h| == 4
  {
    [if k < 2 then 0x2F else 0x37, StandardLength(k) - 2, if k < 2 then k else k - 2, 0x10 + index]
  }

  function Minutes(slot: Option<int>): int {
    if slot.Some? then slot.value else DISABLED_START_TIME
  }

  method PackStartTimes(head: Frame, slots: seq<Option<int>>) returns (frame: NFrame)
    requires |head| == 4 && |slots| == 8
    requires forall k :: 0 <= k < 8 && slots[k].Some? ==> 0 <= slots[k].value < 1440
    ensures |frame| == 20 && frame[..4] == head && StartSlots(frame) == slots
  {
    frame := head + Zeros(16);
    for slot := 0 to 8
      invariant |frame| == 20 && frame[..4] == head
      invariant forall k :: 0 <= k < slot ==> StartSlot(frame, k) == slots[k]
    {
      hide StartSlot;
      var next := Splice(frame, 4 + slot * 2, Be16(Minutes(slots[slot])));
      SlotWritten(frame, slot, slots[slot], next);
      assert next[..4] == frame[..4];
      frame := next;
    }
    assert StartSlots(frame) == slots;
  }

  lemma SlotWritten(frame: NFrame, slot: nat, v: Option<int>, next: NFrame)
    requires |frame| == 20 && slot < 8 && (v.Some? ==> 0 <= v.value < 1440)
    requires next == Splice(frame, 4 + slot * 2, Be16(Minutes(v)))
    ensures StartSlot(next, slot) == v
    ensures forall k :: 0 <= k < 8 && k != slot ==> StartSlot(next, k) == StartSlot(frame, k)
  {
  }

  method PackDurations(head: Frame, durations: seq<int>) returns (frame: NFrame)
    requires |head| == 4 && |durations| <= 5 && forall k :: 0 <= k < |durations| ==> 0 <= durations[k] <= 0xFF_FFFF
    ensures |frame| == 4 + 3 * |durations| && frame[..4] == head && Durations(frame, |durations|) == durations
  {
    frame := head + Zeros(3 * |durations|);
    for slot := 0 to |durations|
      invariant |frame| == 4 + 3 * |durations| && frame[..4] == head
      invariant forall k :: 0 <= k < slot ==> Word24(frame, 4 + 3 * k) == durations[k]
    {
      var next := Splice(frame, 4 + slot * 3, Be24(durations[slot]));
      DurationWritten(frame, slot, durations[slot], next);
      assert next[..4] == frame[..4];
      frame := next;
    }
    assert Durations(frame, |durations|) == durations;
  }

  lemma DurationWritten(frame: NFrame, slot: nat, v: int, next: NFrame)
    requires 4 + 3 * slot + 3 <= |frame| && 0 <= v <= 0xFF_FFFF
    requires next == Splice(frame, 4 + slot * 3, Be24(v))
    ensures Word24(next, 4 + 3 * slot) == v
    ensures forall k :: 0 <= k && k != slot && 4 + 3 * k + 3 <= |frame| ==> Word24(next, 4 + 3 * k) == Word24(frame, 4 + 3 * k)
  {
  }

  /** The program a controller reports after storing `n` on the day `today`. */
  function Stored(n: Program, today: Date): Program
    requires |n.durations| <= 12
  {
    n.(periodStart := None, controllerDate := if 2000 <= today.year <= 2100 then Some(today) else None,
       durations := PadDurations(n.durations, 12))
  }

  predicate WriteFrames(ws: seq<NFrame>, index: int) {
    StandardBlock(ws) && 0 <= index < 3 && forall k :: 0 <= k < 7 ==> ws[k][..4] == Head(index, k)
  }

  /** `pack_set_irrigation_program`: seven frames which decode to the normalised program. */
  method Pack(index: int, p: Program, today: Date, maxStations: int) returns (r: Result<seq<NFrame>>)
    requires PythonDate(today) && (p.periodStart.Some? ==> ValidDate(p.periodStart.value))
    ensures r.Ok? <==> 0 <= index < 3 && NormalizeForWrite(p, today, maxStations).Ok?
    ensures r.Err? ==> r.error == ValueError
    ensures r.Ok? ==> WriteFrames(r.value, index)
    ensures r.Ok? && NulFree(p.name) ==>
              DecodeBlock(r.value) == Stored(NormalizeForWrite(p, today, maxStations).value, today)
  {
    hide NormalizeForWrite, DecodeBlock, StandardBlock, Splice, StartSlots, Durations;
    var normalized := NormalizeForWrite(p, today, maxStations);
    if !(0 <= index < 3) || normalized.Err? {
      return Err(ValueError);
    }
    var n := normalized.value;
    var name, durations := Pad(n.name, 31), PadDurations(n.durations, 12);
    var f0: NFrame := Head(index, 0) + name[..16];
    var f1: NFrame := Head(index, 1) + name[16..] + [0];
    var f2: NFrame := Head(index, 2) + Header(n, today);
    var f3 := PackStartTimes(Head(index, 3), n.startTimes);
    var f4 := PackDurations(Head(index, 4), durations[..5]);
    var f5 := PackDurations(Head(index, 5), durations[5..10]);
    var f6 := PackDurations(Head(index, 6), durations[10..]);
    var ws := [f0, f1, f2, f3, f4, f5, f6];
    PackedFrames(index, n, today, ws);
    if NulFree(p.name) {
      assert NulFree(n.name);
      PackedDecodes(index, n, today, ws);
    }
    r := Ok(ws);
  }

  function Header(n: Program, today: Date): (h: Frame)
    requires Storable(n, |n.durations|) && PythonDate(today)
    ensures |h| == 12
  {
    Be16(n.interStationDelay) + Be16(n.waterBudget) + [n.cycle, n.weekDays, n.periodLength, n.synchroDay]
    + [today.day, today.month] + Be16(today.year)
  }

  /** The seven frames of a normalised program. */
  ghost predicate PackedAs(index: int, n: Program, today: Date, ws: seq<NFrame>) {
    && 0 <= index < 3 && Storable(n, |n.durations|) && PythonDate(today) && |n.name| <= 31 && |n.startTimes| == 8
    && |ws| == 7
    && ws[0] == Head(index, 0) + Pad(n.name, 31)[..16]
    && ws[1] == Head(index, 1) + Pad(n.name, 31)[16..] + [0]
    && ws[2] == Head(index, 2) + Header(n, today)
    && |ws[3]| == 20 && |ws[4]| == 19 && |ws[5]| == 19 && |ws[6]| == 10
    && (forall k :: 3 <= k < 7 ==> ws[k][..4] == Head(index, k))
    && StartSlots(ws[3]) == n.startTimes
    && var d := PadDurations(n.durations, 12);
       Durations(ws[4], 5) == d[..5] && Durations(ws[5], 5) == d[5..10] && Durations(ws[6], 2) == d[10..]
  }

  lemma PackedFrames(index: int, n: Program, today: Date, ws: seq<NFrame>)
    requires PackedAs(index, n, today, ws)
    ensures WriteFrames(ws, index)
  {
  }

  lemma PackedDecodes(index: int, n: Program, today: Date, ws: seq<NFrame>)
    requires PackedAs(index, n, today, ws) && NulFree(n.name)
    ensures StandardBlock(ws) && DecodeBlock(ws) == Stored(n, today)
  {
    hide StartSlots, Durations, Pad;
    PackedName(n.name, ws[0], ws[1], Head(index, 0), Head(index, 1));
    PackedHeader(n, today, ws[2], Head(index, 2));
    var d := PadDurations(n.durations, 12);
    assert d == d[..5] + d[5..10] + d[10..];
  }

  lemma PackedName(name: Frame, f: NFrame, g: NFrame, h: Frame, h': Frame)
    requires NulFree(name) && |name| <= 31 && |h| == 4 && |h'| == 4
    requires f == h + Pad(name, 31)[..16] && g == h' + Pad(name, 31)[16..] + [0]
    ensures CutNul(f[4..20]) + CutNul(g[4..20]) == name
  {
    assert f[4..20] == Pad(name, 31)[..16] && g[4..20] == Pad(name, 31)[16..] + [0];
    NameHalves(name, 0);
  }

  lemma PackedHeader(n: Program, today: Date, f: NFrame, h: Frame)
    requires Storable(n, |n.durations|) && PythonDate(today) && |h| == 4 && f == h + Header(n, today)
    ensures Word16(f, 4) == n.interStationDelay && Word16(f, 6) == n.waterBudget
    ensures f[8] == n.cycle && f[9] == n.weekDays && f[10] == n.periodLength && f[11] == n.synchroDay
    ensures ControllerDate(f) == if 2000 <= today.year <= 2100 then Some(today) else None
  {
  }

  /** Frame `k` announces its own size and addresses chunk `k` of the slot, so a controller that takes the seven frames
      holds their payloads there, and whatever it held elsewhere. */
  lemma {:induction false} PackedWrites(d: Replay.Store, ws: seq<NFrame>, index: int, n: nat)
    requires WriteFrames(ws, index) && n <= 7 && forall k :: 0 <= k < 7 ==> (index, k) in d
    ensures |ws| == 7 && Replay.ApplyWrites(d, ws[..n]) == d + Replay.BlockStore(ws, index, n)
  {
    hide Replay.Target, Replay.Announced;
    if n > 0 {
      PackedWrites(d, ws, index, n - 1);
      FrameAddress(ws, index, n - 1);
      var before: seq<Frame> := ws[..n];
      assert before[..n - 1] == ws[..n - 1];
      Replay.ApplyWritesKeepsKeys(d, ws[..n - 1]);
    }
  }

  lemma FrameAddress(ws: seq<NFrame>, index: int, k: int)
    requires WriteFrames(ws, index) && 0 <= k < 7
    ensures |ws| == 7 && Replay.Announced(ws[k]) && Replay.Target(ws[k]) == Some((index, k))
  {
    var head := Head(index, k);
    assert |ws[k]| == StandardLength(k) && ws[k][..4] == head;
    assert forall o :: 0 <= o < 4 ==> ws[k][o] == head[o];
  }

  // ---- packing, then assembling ---------------------------------------------------------

  /** The canonical chunks of the same program. */
  function Chunks(ws: seq<NFrame>): (b: seq<NFrame>)
    requires |ws| == 7
    ensures |b| == 7 && forall k :: 0 <= k < 7 ==> b[k] == WithId(ws[k], k)
  {
    seq(7, k requires 0 <= k < 7 => WithId(ws[k], k))
  }

  lemma ChunksDecode(ws: seq<NFrame>)
    requires StandardBlock(ws)
    ensures StandardBlock(Chunks(ws)) && DecodeBlock(Chunks(ws)) == DecodeBlock(ws)
  {
  }

  lemma ChunksBlock(ws: seq<NFrame>, i: int)
    requires WriteFrames(ws, i)
    ensures |ws| == 7 && ReadableBlock(ws) && SlotBlock(Chunks(ws), i) && DecodeBlock(Chunks(ws)) == DecodeBlock(ws)
  {
    hide DecodeBlock;
    ChunksDecode(ws);
    forall k | 0 <= k < 7
      ensures Chunks(ws)[k][0] in [0x2F, 0x37] && Chunks(ws)[k][3] == 0x10 + i
    {
      assert ws[k][..4] == Head(i, k);
      assert ws[k][0] == ws[k][..4][0] && ws[k][3] == ws[k][..4][3];
    }
  }

  /** Packing and then assembling is the identity: three packed programs, numbered down from any ids as a
      controller numbers its fragments, form a complete response whose programs are the ones their frames
      decode to. */
  lemma PackThenAssemble(a: seq<NFrame>, b: seq<NFrame>, c: seq<NFrame>, ta: int, tb: int, tc: int)
    requires WriteFrames(a, 0) && WriteFrames(b, 1) && WriteFrames(c, 2)
    requires 6 <= ta < 256 && 6 <= tb < 256 && 6 <= tc < 256
    ensures var frames: seq<Frame> := Numbered(Chunks(a), ta) + Numbered(Chunks(b), tb) + Numbered(Chunks(c), tc);
            && (exists s :: IsSnapshot(s, frames))
            && forall s :: IsSnapshot(s, frames) ==>
                 s.programs == [DecodeBlock(a), DecodeBlock(b), DecodeBlock(c)] && s.extras == []
  {
    hide Content, DecodeBlock, IsBlock, WriteFrames, ReadableBlock, IsSnapshot, SlotBlock, Numbered, Chunks;
    ChunksBlock(a, 0);
    ChunksBlock(b, 1);
    ChunksBlock(c, 2);
    NumberedResponse(Chunks(a), Chunks(b), Chunks(c), ta, tb, tc);
    var frames: seq<Frame> := Numbered(Chunks(a), ta) + Numbered(Chunks(b), tb) + Numbered(Chunks(c), tc);
    var s := Snapshot(frames, [Chunks(a), Chunks(b), Chunks(c)], [], [DecodeBlock(a), DecodeBlock(b), DecodeBlock(c)]);
    forall e | IsSnapshot(e, frames)
      ensures e.programs == s.programs && e.extras == []
    {
      SnapshotDependsOnContent(e, frames, s, frames);
    }
  }
}
