/** The byte-preserving program editor: `ProgramSnapshot.patch`. */
module Patching {
  import opened Options
  import opened Bytes
  import opened Protocol

  /** One entry of the `changes` dictionary; `Unsupported` is any other key. */
  datatype Change =
    | Name(text: Frame)
    | InterStationDelay(value: int)
    | WaterBudget(value: int)
    | Cycle(value: int)
    | WeekDays(value: int)
    | PeriodLength(value: int)
    | SynchroDay(value: int)
    | StartTimes(slots: seq<Option<int>>)
    | StationDurations(seconds: map<int, int>)
    | Unsupported(key: string)

  function Field(c: Change): int {
    match c
    case Name(_) => 0
    case InterStationDelay(_) => 1
    case WaterBudget(_) => 2
    case Cycle(_) => 3
    case WeekDays(_) => 4
    case PeriodLength(_) => 5
    case SynchroDay(_) => 6
    case StartTimes(_) => 7
    case StationDurations(_) => 8
    case Unsupported(_) => 9
  }

  /** A dictionary holds each supported key at most once. */
  ghost predicate DistinctFields(cs: seq<Change>) {
    forall i, j :: 0 <= i < j < |cs| && !cs[i].Unsupported? ==> Field(cs[i]) != Field(cs[j])
  }

  predicate ChangeOk(c: Change, stations: int) {
    match c
    case Name(text) => NulFree(text) && |text| <= 31
    case InterStationDelay(v) => 0 <= v <= 65535
    case WaterBudget(v) => 0 <= v <= 65535
    case Cycle(v) => 0 <= v <= 4
    case WeekDays(v) => 0 <= v <= 127
    case PeriodLength(v) => 1 <= v <= 255
    case SynchroDay(v) => 0 <= v <= 255
    case StartTimes(slots) => |slots| == 8 && forall k :: 0 <= k < 8 && slots[k].Some? ==> 0 <= slots[k].value <= 1439
    case StationDurations(m) => forall s :: s in m ==> 1 <= s <= stations && s <= 12 && 0 <= m[s] <= 0xFF_FFFF
    case Unsupported(_) => false
  }

  function SlotMinutes(slots: seq<Option<int>>, k: int): (m: int)
    requires ChangeOk(StartTimes(slots), 12) && 0 <= k < 8
    ensures 0 <= m < 0x1_0000
  {
    if slots[k].Some? then slots[k].value else DISABLED_START_TIME
  }

  /** How many stations chunk `k` stores. */
  function StationsIn(k: int): int {
    if k == 4 || k == 5 then 5 else if k == 6 then 2 else 0
  }

  /** The 1-based station stored at slot `q` of chunk `k`. */
  function StationAt(k: int, q: int): int {
    (k - 4) * 5 + q + 1
  }

  /** The byte that change `c` stores at offset `o` of chunk `k`, or `None` outside its window. */
  function Effect(c: Change, k: int, o: int): (e: Option<byte>)
    requires ChangeOk(c, 12)
    ensures e.Some? ==> 4 <= o < 20
  {
    match c
    case Name(text) =>
      if k == 0 && 4 <= o < 20 then Some(Pad(text, 31)[o - 4])
      else if k == 1 && 4 <= o < 19 then Some(Pad(text, 31)[o + 12])
      else None
    case InterStationDelay(v) => if k == 2 && 4 <= o < 6 then Some(Be16(v)[o - 4]) else None
    case WaterBudget(v) => if k == 2 && 6 <= o < 8 then Some(Be16(v)[o - 6]) else None
    case Cycle(v) => if k == 2 && o == 8 then Some(v) else None
    case WeekDays(v) => if k == 2 && o == 9 then Some(v) else None
    case PeriodLength(v) => if k == 2 && o == 10 then Some(v) else None
    case SynchroDay(v) => if k == 2 && o == 11 then Some(v) else None
    case StartTimes(slots) =>
      if k == 3 && 4 <= o < 20 then Some(Be16(SlotMinutes(slots, (o - 4) / 2))[(o - 4) % 2]) else None
    case StationDurations(m) =>
      if 4 <= o && (o - 4) / 3 < StationsIn(k) && StationAt(k, (o - 4) / 3) in m
      then Some(Be24(m[StationAt(k, (o - 4) / 3)])[(o - 4) % 3])
      else None
  }

  ghost predicate AllOk(cs: seq<Change>, stations: int) {
    stations <= 12 && forall k :: 0 <= k < |cs| ==> ChangeOk(cs[k], stations)
  }

  /** The byte the whole dictionary stores at one place: that of the change whose window covers it. */
  function EffectOf(cs: seq<Change>, k: int, o: int): (e: Option<byte>)
    requires forall j :: 0 <= j < |cs| ==> ChangeOk(cs[j], 12)
    ensures e.Some? ==> 4 <= o < 20
  {
    if cs == [] then None
    else
      var last := Effect(cs[|cs| - 1], k, o);
      if last.Some? then last else EffectOf(cs[..|cs| - 1], k, o)
  }

  function Overwrite(f: NFrame, cs: seq<Change>, k: int): (r: NFrame)
    requires forall j :: 0 <= j < |cs| ==> ChangeOk(cs[j], 12)
    ensures |r| == |f|
    ensures forall o :: 0 <= o < |f| ==> r[o] == (var e := EffectOf(cs, k, o); if e.Some? then e.value else f[o])
  {
    var r := seq(|f|, o requires 0 <= o < |f| => var e := EffectOf(cs, k, o); if e.Some? then e.value else f[o]);
    r
  }

  /** The patched block, byte by byte. */
  function PatchedBlock(b: seq<NFrame>, cs: seq<Change>): (r: seq<NFrame>)
    requires |b| == 7 && forall j :: 0 <= j < |cs| ==> ChangeOk(cs[j], 12)
    ensures |r| == 7 && forall k :: 0 <= k < 7 ==> r[k] == Overwrite(b[k], cs, k)
  {
    seq(7, k requires 0 <= k < 7 => Overwrite(b[k], cs, k))
  }

  lemma EmptyPatch(b: seq<NFrame>)
    requires |b| == 7
    ensures PatchedBlock(b, []) == b
  {
    forall k | 0 <= k < 7
      ensures PatchedBlock(b, [])[k] == b[k]
    {
    }
  }

  // ---- the windows are disjoint -------------------------------------------

  lemma WindowsDisjoint(c: Change, d: Change, k: int, o: int)
    requires ChangeOk(c, 12) && ChangeOk(d, 12) && Field(c) != Field(d)
    ensures Effect(c, k, o).None? || Effect(d, k, o).None?
  {
  }

  lemma {:induction false} EffectOfMember(cs: seq<Change>, k: int, o: int)
    requires AllOk(cs, 12) && DistinctFields(cs)
    ensures forall c :: c in cs && Effect(c, k, o).Some? ==> EffectOf(cs, k, o) == Effect(c, k, o)
    ensures EffectOf(cs, k, o).Some? ==> exists c :: c in cs && Effect(c, k, o) == EffectOf(cs, k, o)
  {
    if cs != [] {
      var n := |cs| - 1;
      EffectOfMember(cs[..n], k, o);
      assert cs[n] in cs;
      forall c | c in cs && Effect(c, k, o).Some?
        ensures EffectOf(cs, k, o) == Effect(c, k, o)
      {
        var i :| 0 <= i < |cs| && cs[i] == c;
        if i < n {
          assert cs[..n][i] == c;
          WindowsDisjoint(c, cs[n], k, o);
        }
      }
    }
  }

  /** The order in which the dictionary lists its entries is irrelevant. */
  lemma OrderIndependent(b: seq<NFrame>, cs: seq<Change>, ds: seq<Change>)
    requires |b| == 7 && AllOk(cs, 12) && AllOk(ds, 12) && DistinctFields(cs) && DistinctFields(ds)
    requires forall c :: c in cs <==> c in ds
    ensures PatchedBlock(b, cs) == PatchedBlock(b, ds)
  {
    forall k, o | 0 <= k < 7 && 0 <= o < |b[k]|
      ensures PatchedBlock(b, cs)[k][o] == PatchedBlock(b, ds)[k][o]
    {
      EffectOfMember(cs, k, o);
      EffectOfMember(ds, k, o);
    }
    forall k | 0 <= k < 7
      ensures PatchedBlock(b, cs)[k] == PatchedBlock(b, ds)[k]
    {
    }
  }

  lemma {:induction false} EffectOfConcat(cs: seq<Change>, ds: seq<Change>, k: int, o: int)
    requires AllOk(cs, 12) && AllOk(ds, 12)
    ensures AllOk(cs + ds, 12)
    ensures EffectOf(cs + ds, k, o) == if EffectOf(ds, k, o).Some? then EffectOf(ds, k, o) else EffectOf(cs, k, o)
  {
    if ds == [] {
      assert cs + ds == cs;
    } else {
      var n := |ds| - 1;
      assert (cs + ds)[..|cs + ds| - 1] == cs + ds[..n];
      EffectOfConcat(cs, ds[..n], k, o);
    }
  }

  /** Two patches in a row are one patch; a patch on top of itself adds nothing. */
  lemma PatchesCompose(b: seq<NFrame>, cs: seq<Change>, ds: seq<Change>)
    requires |b| == 7 && AllOk(cs, 12) && AllOk(ds, 12)
    ensures AllOk(cs + ds, 12)
    ensures PatchedBlock(PatchedBlock(b, cs), ds) == PatchedBlock(b, cs + ds)
    ensures PatchedBlock(PatchedBlock(b, cs), cs) == PatchedBlock(b, cs)
  {
    EffectOfConcat(cs, ds, 0, 0);
    var p := PatchedBlock(b, cs);
    forall k | 0 <= k < 7
      ensures PatchedBlock(p, ds)[k] == PatchedBlock(b, cs + ds)[k]
      ensures PatchedBlock(p, cs)[k] == p[k]
    {
      forall o | 0 <= o < |b[k]|
        ensures PatchedBlock(p, ds)[k][o] == PatchedBlock(b, cs + ds)[k][o]
      {
        EffectOfConcat(cs, ds, k, o);
      }
    }
  }
}
