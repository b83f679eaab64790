/** What a byte-level patch does to the decoded program. */
module PatchMeaning {
  import opened Options
  import opened Bytes
  import opened Protocol
  import opened Patching

  /** The program with one field replaced. */
  function SetField(p: Program, c: Change): (r: Program)
    requires |p.durations| == 12
    ensures |r.durations| == 12
  {
    match c
    case Name(text) => p.(name := text)
    case InterStationDelay(v) => p.(interStationDelay := v)
    case WaterBudget(v) => p.(waterBudget := v)
    case Cycle(v) => p.(cycle := v)
    case WeekDays(v) => p.(weekDays := v)
    case PeriodLength(v) => p.(periodLength := v)
    case SynchroDay(v) => p.(synchroDay := v)
    case StartTimes(slots) => p.(startTimes := slots)
    case StationDurations(m) =>
      p.(durations := seq(12, s requires 0 <= s < 12 => if s + 1 in m then m[s + 1] else p.durations[s]))
    case Unsupported(_) => p
  }

  function Overlaid(p: Program, cs: seq<Change>): (r: Program)
    requires |p.durations| == 12
    ensures |r.durations| == 12
  {
    if cs == [] then p else SetField(Overlaid(p, cs[..|cs| - 1]), cs[|cs| - 1])
  }

  /** A full-length name is followed by a byte the editor never writes but the decoder reads. */
  predicate NameFits(c: Change, b: seq<NFrame>)
    requires StandardBlock(b)
  {
    c.Name? ==> |c.text| < 31 || b[1][19] == 0
  }

  lemma PatchOne(b: seq<NFrame>, c: Change, k: int)
    requires StandardBlock(b) && ChangeOk(c, 12) && 0 <= k < 7
    ensures var r := PatchedBlock(b, [c])[k];
            && |r| == |b[k]|
            && (forall o :: 0 <= o < |r| ==> r[o] == if Effect(c, k, o).Some? then Effect(c, k, o).value else b[k][o])
            && ((forall o :: Effect(c, k, o).None?) ==> r == b[k])
  {
    forall o
      ensures EffectOf([c], k, o) == Effect(c, k, o)
    {
      assert [c][..0] == [];
    }
  }

  lemma PatchedIsStandard(b: seq<NFrame>, cs: seq<Change>)
    requires StandardBlock(b) && AllOk(cs, 12)
    ensures StandardBlock(PatchedBlock(b, cs))
  {
  }

  /** The two stored halves spell the name exactly when the byte after them ends it. */
  lemma NameHalves(t: Frame, x: byte)
    requires NulFree(t) && |t| <= 31
    ensures var n := Pad(t, 31);
            CutNul(n[..16]) + CutNul(n[16..] + [x]) == t <==> |t| < 31 || x == 0
  {
    var n := Pad(t, 31);
    if |t| <= 16 {
      assert n[..16] == Pad(t, 16);
      CutNulPad(t, 16);
      assert n[16..] + [x] == Pad([], 15) + [x];
    } else {
      assert n[..16] == t[..16] == t[..16] + [];
      CutNulAppend(t[..16], []);
      var rest := t[16..];
      assert n[16..] + [x] == rest + (Zeros(31 - |t|) + [x]);
      CutNulAppend(rest, Zeros(31 - |t|) + [x]);
      assert |t| == 31 ==> Zeros(0) + [x] == [x];
      assert t == t[..16] + rest;
    }
  }

  lemma PatchName(b: seq<NFrame>, text: Frame)
    requires StandardBlock(b) && ChangeOk(Name(text), 12)
    ensures var r := PatchedBlock(b, [Name(text)]);
            && StandardBlock(r)
            && DecodeBlock(r) == DecodeBlock(b).(name := DecodeBlock(r).name)
            && (DecodeBlock(r).name == text <==> NameFits(Name(text), b))
  {
    var c, n := Name(text), Pad(text, 31);
    var r := PatchedBlock(b, [c]);
    PatchedIsStandard(b, [c]);
    forall k | 0 <= k < 7
      ensures k >= 2 ==> r[k] == b[k]
    {
      PatchOne(b, c, k);
    }
    PatchOne(b, c, 0);
    PatchOne(b, c, 1);
    assert r[0][4..20] == n[..16];
    assert r[1][4..20] == n[16..] + [b[1][19]];
    NameHalves(text, b[1][19]);
  }

  lemma PatchHeader(b: seq<NFrame>, c: Change)
    requires StandardBlock(b) && ChangeOk(c, 12) && 1 <= Field(c) <= 6
    ensures var r := PatchedBlock(b, [c]);
            StandardBlock(r) && DecodeBlock(r) == SetField(DecodeBlock(b), c)
  {
    var r := PatchedBlock(b, [c]);
    PatchedIsStandard(b, [c]);
    forall k | 0 <= k < 7
      ensures k != 2 ==> r[k] == b[k]
    {
      PatchOne(b, c, k);
    }
    PatchOne(b, c, 2);
    HeaderField(b[2], r[2], c);
  }

  lemma HeaderField(f: NFrame, g: NFrame, c: Change)
    requires ChangeOk(c, 12) && 1 <= Field(c) <= 6 && |f| == |g| == 16
    requires forall o :: 0 <= o < 16 ==> g[o] == if Effect(c, 2, o).Some? then Effect(c, 2, o).value else f[o]
    ensures Word16(g, 4) == (if c.InterStationDelay? then c.value else Word16(f, 4))
    ensures Word16(g, 6) == (if c.WaterBudget? then c.value else Word16(f, 6))
    ensures g[8] == (if c.Cycle? then c.value else f[8]) && g[9] == (if c.WeekDays? then c.value else f[9])
    ensures g[10] == (if c.PeriodLength? then c.value else f[10]) && g[11] == (if c.SynchroDay? then c.value else f[11])
    ensures ControllerDate(g) == ControllerDate(f) && forall o :: 12 <= o < 16 ==> g[o] == f[o]
  {
  }

  lemma PatchStartTimes(b: seq<NFrame>, slots: seq<Option<int>>)
    requires StandardBlock(b) && ChangeOk(StartTimes(slots), 12)
    ensures var r := PatchedBlock(b, [StartTimes(slots)]);
            StandardBlock(r) && DecodeBlock(r) == DecodeBlock(b).(startTimes := slots)
  {
    hide DecodeBlock, Overwrite, Effect, ChangeOk;
    var c := StartTimes(slots);
    var r := PatchedBlock(b, [c]);
    PatchedIsStandard(b, [c]);
    forall k | 0 <= k < 7
      ensures k != 3 ==> r[k] == b[k]
    {
      PatchOne(b, c, k);
      StartsWindow(slots, k);
    }
    PatchOne(b, c, 3);
    StartsWindow(slots, 3);
    forall q | 0 <= q < 8
      ensures StartSlot(r[3], q) == slots[q]
    {
      StoredSlot(slots, r[3], q);
    }
    OnlyStarts(b, r, slots);
  }

  lemma StartsWindow(slots: seq<Option<int>>, k: int)
    requires ChangeOk(StartTimes(slots), 12)
    ensures k != 3 ==> forall o :: Effect(StartTimes(slots), k, o).None?
    ensures forall o :: 4 <= o < 20 ==> Effect(StartTimes(slots), 3, o).Some?
    ensures |slots| == 8
  {
  }

  lemma OnlyStarts(b: seq<NFrame>, r: seq<NFrame>, slots: seq<Option<int>>)
    requires ReadableBlock(b) && ReadableBlock(r) && |slots| == 8 && forall k :: 0 <= k < 7 && k != 3 ==> r[k] == b[k]
    requires forall q :: 0 <= q < 8 ==> StartSlot(r[3], q) == slots[q]
    ensures DecodeBlock(r) == DecodeBlock(b).(startTimes := slots)
  {
    assert StartSlots(r[3]) == slots;
  }

  lemma StoredSlot(slots: seq<Option<int>>, f: NFrame, q: int)
    requires ChangeOk(StartTimes(slots), 12) && |f| == 20 && 0 <= q < 8
    requires forall o :: 4 <= o < 20 ==> f[o] == Effect(StartTimes(slots), 3, o).value
    ensures StartSlot(f, q) == slots[q]
  {
  }

  lemma PatchDurations(b: seq<NFrame>, m: map<int, int>)
    requires StandardBlock(b) && ChangeOk(StationDurations(m), 12)
    ensures var r := PatchedBlock(b, [StationDurations(m)]);
            StandardBlock(r) && DecodeBlock(r) == SetField(DecodeBlock(b), StationDurations(m))
  {
    var c := StationDurations(m);
    var r := PatchedBlock(b, [c]);
    PatchedIsStandard(b, [c]);
    forall k | 0 <= k < 7
      ensures k < 4 ==> r[k] == b[k]
    {
      PatchOne(b, c, k);
    }
    assert DecodeBlock(r) == DecodeBlock(b).(durations := DecodeBlock(r).durations);
    forall s | 0 <= s < 12
      ensures DecodeBlock(r).durations[s] == if s + 1 in m then m[s + 1] else DecodeBlock(b).durations[s]
    {
      PatchedDuration(b, m, s);
    }
    assert DecodeBlock(r).durations == SetField(DecodeBlock(b), c).durations;
  }

  lemma DurationAt(b: seq<NFrame>, s: int)
    requires StandardBlock(b) && 0 <= s < 12
    ensures DecodeBlock(b).durations[s] == Word24(b[4 + s / 5], 4 + 3 * (s % 5))
  {
  }

  lemma PatchedDuration(b: seq<NFrame>, m: map<int, int>, s: int)
    requires StandardBlock(b) && ChangeOk(StationDurations(m), 12) && 0 <= s < 12
    ensures var r := PatchedBlock(b, [StationDurations(m)]);
            StandardBlock(r) && DecodeBlock(r).durations[s] == if s + 1 in m then m[s + 1] else DecodeBlock(b).durations[s]
  {
    hide DecodeBlock, Overwrite, Effect;
    var c := StationDurations(m);
    var r, k, q := PatchedBlock(b, [c]), 4 + s / 5, s % 5;
    PatchedIsStandard(b, [c]);
    DurationAt(b, s);
    DurationAt(r, s);
    PatchOne(b, c, k);
    assert StationAt(k, q) == s + 1;
    StoredDuration(m, b[k], r[k], k, q);
  }

  lemma DurationByte(m: map<int, int>, k: int, q: int, j: int)
    requires ChangeOk(StationDurations(m), 12) && 4 <= k < 7 && 0 <= q < StationsIn(k) && 0 <= j < 3
    ensures Effect(StationDurations(m), k, 4 + 3 * q + j)
            == if StationAt(k, q) in m then Some(Be24(m[StationAt(k, q)])[j]) else None
  {
    assert (3 * q + j) / 3 == q && (3 * q + j) % 3 == j;
  }

  lemma StoredDuration(m: map<int, int>, f: NFrame, g: NFrame, k: int, q: int)
    requires ChangeOk(StationDurations(m), 12) && |f| == |g| && 4 <= k < 7 && 0 <= q < StationsIn(k) && 7 + 3 * q <= |f|
    requires var c := StationDurations(m);
             forall o :: 0 <= o < |f| ==> g[o] == if Effect(c, k, o).Some? then Effect(c, k, o).value else f[o]
    ensures Word24(g, 4 + 3 * q) == if StationAt(k, q) in m then m[StationAt(k, q)] else Word24(f, 4 + 3 * q)
  {
    hide Effect;
    DurationByte(m, k, q, 0);
    DurationByte(m, k, q, 1);
    DurationByte(m, k, q, 2);
    var o := 4 + 3 * q;
    assert g[o] == if Effect(StationDurations(m), k, o + 0).Some? then Effect(StationDurations(m), k, o + 0).value else f[o];
  }

  lemma PatchOneMeaning(b: seq<NFrame>, c: Change)
    requires StandardBlock(b) && ChangeOk(c, 12)
    ensures var r := PatchedBlock(b, [c]);
            && StandardBlock(r) && r[1][19] == b[1][19]
            && (DecodeBlock(r) == SetField(DecodeBlock(b), c) <==> NameFits(c, b))
  {
    hide DecodeBlock;
    PatchOne(b, c, 1);
    match c
    case Name(t) => PatchName(b, t);
    case StartTimes(slots) => PatchStartTimes(b, slots);
    case StationDurations(m) => PatchDurations(b, m);
    case _ => PatchHeader(b, c);
  }

  lemma {:induction false} OverlaidKeepsName(p: Program, cs: seq<Change>)
    requires |p.durations| == 12 && forall i :: 0 <= i < |cs| ==> !cs[i].Name?
    ensures Overlaid(p, cs).name == p.name
  {
    if cs != [] { OverlaidKeepsName(p, cs[..|cs| - 1]); }
  }

  /** The decoded program is the old one overlaid with the changes, field by field. */
  lemma {:induction false} PatchOverlays(b: seq<NFrame>, cs: seq<Change>)
    requires StandardBlock(b) && AllOk(cs, 12)
    requires forall i :: 0 <= i < |cs| ==> NameFits(cs[i], b)
    ensures StandardBlock(PatchedBlock(b, cs)) && PatchedBlock(b, cs)[1][19] == b[1][19]
    ensures DecodeBlock(PatchedBlock(b, cs)) == Overlaid(DecodeBlock(b), cs)
  {
    hide DecodeBlock, SetField, Overwrite;
    if cs == [] {
      EmptyPatch(b);
    } else {
      var n := |cs| - 1;
      PatchOverlays(b, cs[..n]);
      PatchesCompose(b, cs[..n], [cs[n]]);
      assert cs[..n] + [cs[n]] == cs;
      PatchOneMeaning(PatchedBlock(b, cs[..n]), cs[n]);
    }
  }

  /** Whatever is patched, these bytes stay: headers, the date bytes 12-15 of the program header and
      the last byte of the name. */
  lemma PatchKeeps(b: seq<NFrame>, cs: seq<Change>, k: int, o: int)
    requires StandardBlock(b) && AllOk(cs, 12) && 0 <= k < 7 && 0 <= o < |b[k]|
    requires o < 4 || (k == 2 && o >= 12) || (k == 1 && o == 19)
    ensures PatchedBlock(b, cs)[k][o] == b[k][o]
    decreases |cs|
  {
    if cs != [] {
      PatchKeeps(b, cs[..|cs| - 1], k, o);
    }
  }
}
