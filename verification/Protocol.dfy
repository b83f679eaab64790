/** The V5 irrigation-program wire format of `ble/protocol.py`. */
module Protocol {
  import opened Options
  import opened Bytes
  import opened Calendar

  const DISABLED_START_TIME := 1440

  datatype Program = Program(
    name: Frame,
    interStationDelay: int,
    waterBudget: int,
    cycle: int,
    weekDays: int,
    periodLength: int,
    synchroDay: int,
    periodStart: Option<Date>,
    controllerDate: Option<Date>,
    startTimes: seq<Option<int>>,
    durations: seq<int>)

  function MinLength(chunk: int): int
    requires 0 <= chunk < 7
  {
    [20, 20, 11, 20, 19, 19, 10][chunk]
  }

  function StandardLength(chunk: int): int
    requires 0 <= chunk < 7
  {
    [20, 20, 16, 20, 19, 19, 10][chunk]
  }

  /** `normalize_config_notification`. */
  function Normalize(data: Frame): (r: Option<NFrame>)
    ensures r.Some? ==> r.value[0] in [0x2F, 0x37, 0x39, 0x3A]
  {
    if |data| < 4 then None
    else if data[0] in [0x2F, 0x37, 0x39, 0x3A] then Some(data)
    else if data[0] == 0x30 then Some([0x2F] + data[1..])
    else if data[0] == 0x38 then Some([0x37] + data[1..])
    else if data[0] == 0x10 && |data| >= 5 && data[1] in [0x2F, 0x37, 0x39, 0x3A] then Some(data[1..])
    else if data[0] == 0x10 && |data| >= 5 && data[1] == 0x30 then Some([0x2F] + data[2..])
    else if data[0] == 0x10 && |data| >= 5 && data[1] == 0x38 then Some([0x37] + data[2..])
    else None
  }

  predicate Bare(f: Frame) {
    |f| >= 4 && (f[0] == 0x2F || f[0] == 0x30 || 0x37 <= f[0] <= 0x3A)
  }

  /** A notification counts bare or behind the wrapper byte 10, and only then; the response opcodes 30 and 38 stand for
      2f and 37, and nothing else changes. */
  lemma NormalizedFrame(data: Frame)
    ensures Normalize(data).Some? <==> Bare(data) || (data != [] && data[0] == 0x10 && Bare(data[1..]))
    ensures data != [] && data[0] == 0x10 && Bare(data[1..]) ==> Normalize(data) == Normalize(data[1..])
    ensures Bare(data) ==> var f := Normalize(data).value;
            && f[1..] == data[1..]
            && (data[0] == 0x30 ==> f[0] == 0x2F) && (data[0] == 0x38 ==> f[0] == 0x37)
            && (data[0] != 0x30 && data[0] != 0x38 ==> f == data)
  {
    assert |data| >= 1 ==> |data[1..]| == |data| - 1;
    assert |data| >= 2 ==> data[1..][0] == data[1] && data[1..][1..] == data[2..];
  }

  // ---- decoding ----------------------------------------------------------

  function ControllerDate(f: Frame): Option<Date> {
    if |f| < 16 then None
    else
      var d := Date(Word16(f, 14), f[13], f[12]);
      if 2000 <= d.year <= 2100 && ValidDate(d) then Some(d) else None
  }

  function StartSlot(f: Frame, slot: nat): Option<int>
    requires 6 + 2 * slot <= |f|
  {
    var minutes := Word16(f, 4 + 2 * slot);
    if minutes >= DISABLED_START_TIME then None else Some(minutes)
  }

  function StartSlots(f: Frame): (r: seq<Option<int>>)
    requires |f| >= 20
    ensures |r| == 8
  {
    seq(8, s requires 0 <= s < 8 => StartSlot(f, s))
  }

  /** `n` station durations stored from offset 4. */
  function Durations(f: Frame, n: nat): (r: seq<int>)
    requires 4 + 3 * n <= |f|
    ensures |r| == n
  {
    seq(n, s requires 0 <= s < n => Word24(f, 4 + 3 * s))
  }

  predicate ReadableBlock(b: seq<Frame>) {
    |b| == 7 && forall k :: 0 <= k < 7 ==> |b[k]| >= MinLength(k)
  }

  predicate StandardBlock(b: seq<Frame>) {
    |b| == 7 && forall k :: 0 <= k < 7 ==> |b[k]| == StandardLength(k)
  }

  /** Readable are seven chunks of which each reaches to the end of the last field it must hold: sixteen bytes of name in
      the first two, the period in the header, eight start times, and five, five and two durations. */
  lemma ReadableMeans(b: seq<Frame>)
    ensures ReadableBlock(b) <==>
              && |b| == 7 && |b[0]| >= 4 + 16 && |b[1]| >= 4 + 16 && |b[2]| > 10 && |b[3]| >= 4 + 8 * 2
              && |b[4]| >= 4 + 5 * 3 && |b[5]| >= 4 + 5 * 3 && |b[6]| >= 4 + 2 * 3
  {
    assert MinLength(0) == 20 && MinLength(1) == 20 && MinLength(2) == 11 && MinLength(3) == 20;
    assert MinLength(4) == 19 && MinLength(5) == 19 && MinLength(6) == 10;
    hide MinLength;
  }

  /** What the seven chunks of one program mean. */
  function DecodeBlock(b: seq<Frame>): (p: Program)
    requires ReadableBlock(b)
    ensures |p.startTimes| == 8 && |p.durations| == 12
  {
    Program(
      CutNul(b[0][4..20]) + CutNul(b[1][4..20]),
      Word16(b[2], 4), Word16(b[2], 6), b[2][8], b[2][9], b[2][10],
      if |b[2]| > 11 then b[2][11] else 0,
      None, ControllerDate(b[2]),
      StartSlots(b[3]),
      Durations(b[4], 5) + Durations(b[5], 5) + Durations(b[6], 2))
  }

  /** The header bytes before offset 4 carry no program field. */
  lemma DecodeReadsPayloadOnly(b: seq<Frame>, c: seq<Frame>)
    requires ReadableBlock(b) && ReadableBlock(c)
    requires forall k :: 0 <= k < 7 ==> b[k][4..] == c[k][4..]
    ensures DecodeBlock(b) == DecodeBlock(c)
  {
    forall k | 0 <= k < 7
      ensures |b[k]| == |c[k]|
      ensures forall o :: 4 <= o < |b[k]| ==> b[k][o] == c[k][o]
    {
      assert b[k][4..] == c[k][4..];
      forall o | 4 <= o < |b[k]|
        ensures b[k][o] == c[k][o]
      {
        assert b[k][4..][o - 4] == c[k][4..][o - 4];
      }
    }
    assert b[0][4..20] == c[0][4..20] && b[1][4..20] == c[1][4..20];
    assert StartSlots(b[3]) == StartSlots(c[3]);
    assert Durations(b[4], 5) == Durations(c[4], 5);
    assert Durations(b[5], 5) == Durations(c[5], 5);
    assert Durations(b[6], 2) == Durations(c[6], 2);
  }

  // ---- the incremental assembler -----------------------------------------

  /** The program under construction and the pending first half of its name. */
  datatype Assembly = Assembly(program: Program, namePart1: Option<Frame>)

  function EmptyProgram(): (p: Program)
    ensures |p.durations| == 12
  {
    Program([], 0, 0, 0, 0, 0, 0, None, None,
            [None, None, None, None, None, None, None, None], [0, 0, 0, 0, 0, 0, 0, 0, 0, 0, 0, 0])
  }

  /** `_apply_irrigation_chunk`, at the full storage width of twelve stations. */
  function ApplyChunk(a: Assembly, f: Frame, chunk: int): (r: Assembly)
    requires 0 <= chunk < 7 && |f| >= MinLength(chunk)
    requires |a.program.durations| == 12
    ensures |r.program.durations| == 12
  {
    var p := a.program;
    if chunk == 0 then Assembly(p, Some(CutNul(f[4..20])))
    else if chunk == 1 then
      Assembly(p.(name := (if a.namePart1.Some? then a.namePart1.value else []) + CutNul(f[4..20])), a.namePart1)
    else if chunk == 2 then Assembly(ApplyHeader(p, f), a.namePart1)
    else if chunk == 3 then Assembly(p.(startTimes := StartSlots(f)), a.namePart1)
    else if chunk == 4 then Assembly(p.(durations := Durations(f, 5) + p.durations[5..]), a.namePart1)
    else if chunk == 5 then
      Assembly(p.(durations := p.durations[..5] + Durations(f, 5) + p.durations[10..]), a.namePart1)
    else Assembly(p.(durations := p.durations[..10] + Durations(f, 2)), a.namePart1)
  }

  function ApplyHeader(p: Program, f: Frame): Program
    requires |f| >= MinLength(2)
  {
    Program(p.name, Word16(f, 4), Word16(f, 6), f[8], f[9], f[10], if |f| > 11 then f[11] else p.synchroDay,
            None, ControllerDate(f), p.startTimes, p.durations)
  }

  /** The assembly after the first `n` chunks of `b`, each applied once. */
  function Assembled(b: seq<Frame>, n: nat): (r: Assembly)
    requires ReadableBlock(b) && n <= 7
    ensures |r.program.durations| == 12
  {
    if n == 0 then Assembly(EmptyProgram(), None) else ApplyChunk(Assembled(b, n - 1), b[n - 1], n - 1)
  }

  lemma AssembledIsDecoded(b: seq<Frame>)
    requires ReadableBlock(b)
    ensures Assembled(b, 7).program == DecodeBlock(b)
  {
    var name := CutNul(b[0][4..20]) + CutNul(b[1][4..20]);
    var p2 := EmptyProgram().(name := name);
    var p3 := ApplyHeader(p2, b[2]);
    var p4 := p3.(startTimes := StartSlots(b[3]));
    assert Assembled(b, 1).namePart1 == Some(CutNul(b[0][4..20])) && Assembled(b, 1).program == EmptyProgram();
    assert Assembled(b, 2).program == p2;
    assert Assembled(b, 3).program == p3;
    assert Assembled(b, 4).program == p4;
    var d5, d6, d7 := Assembled(b, 5).program, Assembled(b, 6).program, Assembled(b, 7).program;
    assert d5 == p4.(durations := Durations(b[4], 5) + p4.durations[5..]);
    assert d6 == d5.(durations := d5.durations[..5] + Durations(b[5], 5) + d5.durations[10..]);
    assert d7 == d6.(durations := d6.durations[..10] + Durations(b[6], 2));
    assert d7.durations == DecodeBlock(b).durations;
  }

  /** A repeated fragment is harmless. */
  lemma ApplyChunkTwice(a: Assembly, f: Frame, chunk: int)
    requires 0 <= chunk < 7 && |f| >= MinLength(chunk) && |a.program.durations| == 12
    ensures ApplyChunk(ApplyChunk(a, f, chunk), f, chunk) == ApplyChunk(a, f, chunk)
  {
  }

  lemma ApplyChunkIgnoresId(a: Assembly, f: NFrame, id: byte, chunk: int)
    requires 0 <= chunk < 7 && |f| >= MinLength(chunk) && |a.program.durations| == 12
    ensures ApplyChunk(a, WithId(f, id), chunk) == ApplyChunk(a, f, chunk)
  {
  }

  /** Descending by fragment id, equal ids in their original order. */
  function InsertById(f: NFrame, s: seq<NFrame>): (r: seq<NFrame>)
    requires forall i, j :: 0 <= i < j < |s| ==> s[i][2] >= s[j][2]
    ensures forall i, j :: 0 <= i < j < |r| ==> r[i][2] >= r[j][2]
    ensures forall g :: g in r <==> g == f || g in s
    ensures |r| == |s| + 1
  {
    if s == [] || f[2] >= s[0][2] then [f] + s
    else
      var r := InsertById(f, s[1..]);
      assert forall g :: g in r ==> g == f || g in s[1..];
      assert forall k :: 0 <= k < |r| ==> r[k] in r;
      [s[0]] + r
  }

  function SortById(s: seq<NFrame>): (r: seq<NFrame>)
    ensures forall i, j :: 0 <= i < j < |r| ==> r[i][2] >= r[j][2]
    ensures forall g :: g in r <==> g in s
    ensures |r| == |s|
  {
    if s == [] then [] else InsertById(s[0], SortById(s[1..]))
  }

  ghost predicate HasChunk(frags: set<NFrame>, block: seq<NFrame>, top: int, k: int)
    requires |block| == 7 && 6 <= top < 256 && 0 <= k < 7
  {
    WithId(block[k], top - k) in frags
  }

  /** The fragments `frags` of one program are exactly the chunks of `block`, the first having
      fragment id `top` and each later one an id lower by one. Repetitions are allowed. */
  ghost predicate Spells(frags: set<NFrame>, block: seq<NFrame>, top: int) {
    && |block| == 7 && ReadableBlock(block) && 6 <= top < 256
    && (forall k :: 0 <= k < 7 ==> HasChunk(frags, block, top, k))
    && (forall f :: f in frags ==> 0 <= top - f[2] < 7 && f == WithId(block[top - f[2]], f[2]))
  }

  /** `assemble_irrigation_programs` for the fragments of one program: sort, then apply in turn. */
  method AssembleSlot(received: seq<NFrame>, ghost frags: set<NFrame>, ghost block: seq<NFrame>, ghost top: int)
    returns (program: Program)
    requires |received| > 0 && forall g :: g in received <==> g in frags
    ensures Spells(frags, block, top) ==> program == DecodeBlock(block)
  {
    hide ApplyChunk, Reached;
    var ordered := SortById(received);
    var first := ordered[0][2];
    var a := Assembly(EmptyProgram(), None);
    NoneReached(a, ordered, frags, block, top);
    for i := 0 to |ordered|
      invariant |a.program.durations| == 12
      invariant Reached(a, ordered, frags, block, top, i)
    {
      var f := ordered[i];
      var chunk := first - f[2];
      AssemblyStep(a, ordered, frags, block, top, i);
      if 0 <= chunk < 7 && |f| >= MinLength(chunk) {
        a := ApplyChunk(a, f, chunk);
      }
    }
    AllReached(a, ordered, frags, block, top);
    program := a.program;
  }

  /** After `i` of the ordered fragments, exactly the chunks seen so far have been applied. */
  ghost predicate Reached(a: Assembly, ordered: seq<NFrame>, frags: set<NFrame>, block: seq<NFrame>, top: int, i: nat)
    requires i <= |ordered|
  {
    Spells(frags, block, top) ==>
      var done := if i == 0 then 0 else top - ordered[i - 1][2] + 1;
      0 <= done <= 7 && a == Assembled(block, done)
  }

  lemma NoneReached(a: Assembly, ordered: seq<NFrame>, frags: set<NFrame>, block: seq<NFrame>, top: int)
    requires a == Assembly(EmptyProgram(), None)
    ensures Reached(a, ordered, frags, block, top, 0)
  {
  }

  lemma AllReached(a: Assembly, ordered: seq<NFrame>, frags: set<NFrame>, block: seq<NFrame>, top: int)
    requires |ordered| > 0 && Reached(a, ordered, frags, block, top, |ordered|)
    requires forall p, q :: 0 <= p < q < |ordered| ==> ordered[p][2] >= ordered[q][2]
    requires forall g :: g in ordered <==> g in frags
    ensures Spells(frags, block, top) ==> a.program == DecodeBlock(block)
  {
    hide MinLength;
    if Spells(frags, block, top) {
      assert HasChunk(frags, block, top, 6) && WithId(block[6], top - 6) in ordered;
      AssembledIsDecoded(block);
    }
  }

  lemma AssemblyStep(a: Assembly, ordered: seq<NFrame>, frags: set<NFrame>, block: seq<NFrame>, top: int, i: nat)
    requires i < |ordered| && |a.program.durations| == 12 && Reached(a, ordered, frags, block, top, i)
    requires forall p, q :: 0 <= p < q < |ordered| ==> ordered[p][2] >= ordered[q][2]
    requires forall g :: g in ordered <==> g in frags
    ensures var f, chunk := ordered[i], ordered[0][2] - ordered[i][2];
            if 0 <= chunk < 7 && |f| >= MinLength(chunk)
            then Reached(ApplyChunk(a, f, chunk), ordered, frags, block, top, i + 1)
            else Reached(a, ordered, frags, block, top, i + 1)
  {
    if Spells(frags, block, top) {
      hide ApplyChunk, MinLength;
      NextFragment(ordered, frags, block, top, i);
      var f, chunk := ordered[i], top - ordered[i][2];
      ApplyChunkIgnoresId(a, block[chunk], f[2], chunk);
      if i > 0 && ordered[i - 1][2] == f[2] {
        ApplyChunkTwice(Assembled(block, chunk), block[chunk], chunk);
      }
    }
  }

  /** In descending order each fragment repeats the previous chunk or starts the next one. */
  lemma NextFragment(ordered: seq<NFrame>, frags: set<NFrame>, block: seq<NFrame>, top: int, i: nat)
    requires Spells(frags, block, top) && i < |ordered|
    requires forall p, q :: 0 <= p < q < |ordered| ==> ordered[p][2] >= ordered[q][2]
    requires forall g :: g in ordered <==> g in frags
    ensures ordered[0][2] == top
    ensures var c := top - ordered[i][2];
            && 0 <= c < 7 && ordered[i] == WithId(block[c], ordered[i][2])
            && (if i == 0 then c == 0 else top - ordered[i - 1][2] <= c <= top - ordered[i - 1][2] + 1)
  {
    hide ReadableBlock;
    assert ordered[0] in frags && ordered[i] in frags;
    assert HasChunk(frags, block, top, 0) && WithId(block[0], top) in ordered;
    var c := top - ordered[i][2];
    if i > 0 {
      var d := top - ordered[i - 1][2] + 1;
      if c > d {
        assert HasChunk(frags, block, top, d) && WithId(block[d], top - d) in ordered;
        var j :| 0 <= j < |ordered| && ordered[j] == WithId(block[d], top - d);
        assert false;
      }
    }
  }
}
