/** The one divergence that reconciliation accepts: the day byte of an A/B/C program header. */
module DateDrift {
  import opened Options
  import opened Bytes
  import opened Protocol
  import opened Snapshots

  /** Two 16-byte frames of an editable program that differ at most at offset 12. */
  predicate DayByteOnly(a: Frame, b: Frame) {
    && |a| == 16 && |b| == 16 && 0x10 <= a[3] <= 0x12
    && a[..4] == b[..4] && a[..12] == b[..12] && a[13..] == b[13..]
  }

  /** `_differs_only_by_period_start_date`. */
  predicate DiffersOnlyByPeriodStartDate(current: Snapshot, expected: Snapshot) {
    && |current.frames| == |expected.frames|
    && (exists k :: 0 <= k < |current.frames| && current.frames[k] != expected.frames[k])
    && forall k :: 0 <= k < |current.frames| && current.frames[k] != expected.frames[k] ==>
         DayByteOnly(current.frames[k], expected.frames[k])
  }

  // ---- what an accepted difference does to the fragments -------------------------------------

  predicate Wrapped(raw: Frame) {
    raw != [] && raw[0] == 0x10
  }

  /** Both frames carry nothing, or fragments of the same slot with the same id. */
  predicate SameFragmentKey(f: Option<NFrame>, g: Option<NFrame>) {
    (f.None? && g.None?) || (f.Some? && g.Some? && f.value[2] == g.value[2] && f.value[3] == g.value[3])
  }

  /** Position by position the two responses address the same fragments. */
  ghost predicate KeyedAlike(s: seq<Frame>, e: seq<Frame>) {
    |s| == |e| && forall k :: 0 <= k < |s| ==> SameFragmentKey(Normalize(s[k]), Normalize(e[k]))
  }

  /** Unwrapped, the fragments differ at the day byte of a header; wrapped, they are 15 bytes long and differ one
      byte earlier. */
  lemma DriftedFragment(a: Frame, b: Frame)
    requires DayByteOnly(a, b) && a != b
    ensures SameFragmentKey(Normalize(a), Normalize(b))
    ensures var f, g := Normalize(a), Normalize(b);
            g.Some? ==> (if Wrapped(b) then ShiftedByte(f.value, g.value)
                         else Editable(g.value) && DayByteOnly(f.value, g.value) && f != g)
  {
    assert forall k :: 0 <= k < 4 ==> a[k] == a[..4][k] && b[k] == b[..4][k];
    assert forall k :: 0 <= k < 12 ==> a[k] == a[..12][k] && b[k] == b[..12][k];
    assert forall k :: 13 <= k < 16 ==> a[k] == a[13..][k - 13] && b[k] == b[13..][k - 13];
    assert exists k :: 0 <= k < 16 && a[k] != b[k];
    assert a[12] != b[12];
    var f, g := Normalize(a), Normalize(b);
    if g.Some? && !Wrapped(b) {
      assert f.value[12] == a[12] && g.value[12] == b[12];
    }
  }

  /** Fifteen bytes, different exactly at offset 11: in a program header, the interval phase. */
  predicate ShiftedByte(f: Frame, g: Frame) {
    && |f| == 15 && |g| == 15 && f[11] != g[11]
    && f[..4] == g[..4] && f[..11] == g[..11] && f[12..] == g[12..]
  }

  lemma AcceptedKeys(s: Snapshot, e: Snapshot)
    requires DiffersOnlyByPeriodStartDate(s, e)
    ensures KeyedAlike(s.frames, e.frames)
  {
    hide Normalize, DayByteOnly, ShiftedByte;
    forall k | 0 <= k < |s.frames|
      ensures SameFragmentKey(Normalize(s.frames[k]), Normalize(e.frames[k]))
    {
      if s.frames[k] != e.frames[k] { DriftedFragment(s.frames[k], e.frames[k]); }
    }
  }

  lemma SlotChunk(c: set<NFrame>, i: int, b: seq<NFrame>, t: int, k: int)
    requires IsBlock(c, i, b, t) && 0 <= k < 7
    ensures |b| == 7 && 6 <= t < 256 && WithId(b[k], t - k) in SlotOf(c, i) && b[k][2] == k && b[k][3] == 0x10 + i
  {
    assert HasChunk(SlotOf(c, i), b, t, k);
  }

  /** Where the expectation has a fragment, the read has its counterpart. */
  lemma Counterpart(s: seq<Frame>, e: seq<Frame>, f: NFrame) returns (k: int, g: NFrame)
    requires KeyedAlike(s, e) && f in Content(e)
    ensures 0 <= k < |s| == |e| && Normalize(e[k]) == Some(f) && Normalize(s[k]) == Some(g)
    ensures g in Content(s) && g[2] == f[2] && g[3] == f[3]
  {
    hide Normalize;
    k := FromContent(e, f);
    g := Normalize(s[k]).value;
    ContentMember(s, s[k]);
  }

  lemma KeyedSymmetric(s: seq<Frame>, e: seq<Frame>)
    requires KeyedAlike(s, e)
    ensures KeyedAlike(e, s)
  {
  }

  lemma TopAtMost(s: seq<Frame>, e: seq<Frame>, i: int, b: seq<NFrame>, t: int, b': seq<NFrame>, t': int)
    requires KeyedAlike(s, e) && IsBlock(Content(s), i, b, t) && IsBlock(Content(e), i, b', t')
    ensures t' <= t
  {
    hide Content, IsBlock, KeyedAlike;
    SlotChunk(Content(e), i, b', t', 0);
    var k, g := Counterpart(s, e, WithId(b'[0], t'));
    SlotFragment(Content(s), i, b, t, g);
  }

  /** The slot is numbered alike in both. */
  lemma SameTop(s: seq<Frame>, e: seq<Frame>, i: int, b: seq<NFrame>, t: int, b': seq<NFrame>, t': int)
    requires KeyedAlike(s, e) && IsBlock(Content(s), i, b, t) && IsBlock(Content(e), i, b', t')
    ensures t == t'
  {
    hide Content, IsBlock, KeyedAlike;
    KeyedSymmetric(s, e);
    TopAtMost(s, e, i, b, t, b', t');
    TopAtMost(e, s, i, b', t', b, t);
  }

  /** The fragments at position `k` of the two responses, and the chunk they are. */
  ghost predicate Places(s: seq<Frame>, e: seq<Frame>, b: seq<NFrame>, b': seq<NFrame>, t: int, k: int, c: int)
    requires 0 <= k < |s| && |s| == |e| && |b| == |b'| == 7
  {
    && Normalize(s[k]).Some? && Normalize(e[k]).Some? && 0 <= c < 7 && 0 <= t - c < 256
    && Normalize(s[k]).value == WithId(b[c], t - c) && Normalize(e[k]).value == WithId(b'[c], t - c)
    && b[c][2] == c && b'[c][2] == c
  }

  lemma PlaceOf(s: seq<Frame>, e: seq<Frame>, i: int, b: seq<NFrame>, b': seq<NFrame>, t: int, k: int)
    requires KeyedAlike(s, e) && IsBlock(Content(s), i, b, t) && IsBlock(Content(e), i, b', t)
    requires 0 <= k < |s| && Normalize(e[k]).Some? && Normalize(e[k]).value[3] == 0x10 + i
    ensures |b| == |b'| == 7 && Places(s, e, b, b', t, k, t - Normalize(e[k]).value[2])
  {
    hide Content, Normalize, IsBlock;
    var f, g := Normalize(e[k]).value, Normalize(s[k]).value;
    ContentMember(e, e[k]);
    ContentMember(s, s[k]);
    SlotFragment(Content(s), i, b, t, g);
    SlotFragment(Content(e), i, b', t, f);
    SlotChunk(Content(s), i, b, t, t - f[2]);
    SlotChunk(Content(e), i, b', t, t - f[2]);
  }

  lemma ChunkPlace(s: seq<Frame>, e: seq<Frame>, i: int, b: seq<NFrame>, b': seq<NFrame>, t: int, c: int) returns (k: int)
    requires KeyedAlike(s, e) && IsBlock(Content(s), i, b, t) && IsBlock(Content(e), i, b', t) && 0 <= c < 7
    ensures |b| == |b'| == 7 && 0 <= k < |s| == |e| && Places(s, e, b, b', t, k, c)
    ensures Normalize(e[k]).value[3] == 0x10 + i
  {
    hide Content, Normalize, IsBlock, KeyedAlike, Places;
    SlotChunk(Content(e), i, b', t, c);
    var g;
    k, g := Counterpart(s, e, WithId(b'[c], t - c));
    PlaceOf(s, e, i, b, b', t, k);
  }

  lemma DayByteRenumbered(g: NFrame, f: NFrame, id: int)
    requires DayByteOnly(g, f) && 0 <= id < 256
    ensures DayByteOnly(WithId(g, id), WithId(f, id))
  {
  }

  lemma ShiftedByteRenumbered(g: NFrame, f: NFrame, id: int)
    requires ShiftedByte(g, f) && 0 <= id < 256
    ensures ShiftedByte(WithId(g, id), WithId(f, id))
  {
  }

  /** A differing position leaves a differing chunk, by a day byte or by the byte before it. */
  lemma DriftedChunk(s: seq<Frame>, e: seq<Frame>, b: seq<NFrame>, b': seq<NFrame>, t: int, k: int, c: int)
    requires 0 <= k < |s| && |s| == |e| && |b| == |b'| == 7 && Places(s, e, b, b', t, k, c)
    requires s[k] != e[k] && DayByteOnly(s[k], e[k])
    ensures b[c] != b'[c]
    ensures if Wrapped(e[k]) then ShiftedByte(b[c], b'[c]) else DayByteOnly(b[c], b'[c])
  {
    hide Normalize, DayByteOnly, ShiftedByte;
    DriftedFragment(s[k], e[k]);
    var f, g := Normalize(e[k]).value, Normalize(s[k]).value;
    assert WithId(g, c) == b[c] && WithId(f, c) == b'[c];
    if Wrapped(e[k]) {
      ShiftedByteRenumbered(g, f, c);
      ShiftedBytesDiffer(g, f);
    } else {
      DayByteRenumbered(g, f, c);
    }
    assert WithId(b[c], t - c) == g && WithId(b'[c], t - c) == f;
  }

  lemma ShiftedBytesDiffer(f: Frame, g: Frame)
    requires ShiftedByte(f, g)
    ensures f != g
  {
  }

  lemma SamePlaceSameChunk(s: seq<Frame>, e: seq<Frame>, b: seq<NFrame>, b': seq<NFrame>, t: int, k: int, c: int)
    requires 0 <= k < |s| && |s| == |e| && |b| == |b'| == 7 && Places(s, e, b, b', t, k, c) && s[k] == e[k]
    ensures b[c] == b'[c]
  {
    hide Normalize;
    assert WithId(WithId(b[c], t - c), c) == b[c] && WithId(WithId(b'[c], t - c), c) == b'[c];
  }

  // ---- when an accepted difference is harmless ------------------------------------------------

  /** Equal chunk by chunk, except for the day byte of the header. */
  ghost predicate DriftedBlock(b: seq<NFrame>, b': seq<NFrame>) {
    && |b| == |b'| == 7
    && forall k :: 0 <= k < 7 ==> b[k] == b'[k] || (k == 2 && DayByteOnly(b[k], b'[k]))
  }

  /** Every block is byte for byte the expected one except the day byte of its header, and everything outside
      A/B/C is identical. */
  ghost predicate Harmless(s: Snapshot, e: Snapshot) {
    && |s.blocks| == |e.blocks| == 3 && s.extras == e.extras
    && forall i :: 0 <= i < 3 ==> DriftedBlock(s.blocks[i], e.blocks[i])
  }

  /** `top` is the highest fragment id of program `i`. */
  predicate Numbering(frames: seq<Frame>, i: int, top: int) {
    Fragments(frames, i) != [] && MaxId(Fragments(frames, i)) == top
  }

  /** `f` is chunk `c` of its program, counted from the program's highest fragment id. */
  predicate IsChunk(frames: seq<Frame>, f: NFrame, c: int) {
    Numbering(frames, f[3] as int - 0x10, f[2] + c)
  }

  /** A differing frame does no harm when it carries nothing, when it is the header of A, B or C sent unwrapped, or
      when it lies outside A/B/C and both versions of it occur in both responses. */
  predicate HarmlessAt(s: Snapshot, e: Snapshot, k: int)
    requires 0 <= k < |s.frames| && |s.frames| == |e.frames|
  {
    var f, g := Normalize(e.frames[k]), Normalize(s.frames[k]);
    f.None?
    || (Editable(f.value) && !Wrapped(e.frames[k]) && IsChunk(e.frames, f.value, 2))
    || (!Editable(f.value) && g.Some? && f.value in Received(s.frames) && g.value in Received(e.frames))
  }

  /** The fragments of a response. */
  function Received(frames: seq<Frame>): (r: seq<NFrame>)
    ensures forall f :: f in r <==> f in Content(frames)
  {
    if frames == [] then []
    else
      ContentSplit(frames, 1);
      (if Normalize(frames[0]).Some? then [Normalize(frames[0]).value] else []) + Received(frames[1..])
  }

  predicate AllHarmless(s: Snapshot, e: Snapshot)
    requires |s.frames| == |e.frames|
  {
    forall k :: 0 <= k < |s.frames| && s.frames[k] != e.frames[k] ==> HarmlessAt(s, e, k)
  }

  // ---- chunk by chunk ------------------------------------------------------------------------

  /** The read, the expectation and the numbering of slot `i` in both. */
  ghost predicate SlotPair(s: Snapshot, e: Snapshot, i: int, t: int) {
    && 0 <= i < 3 && |s.blocks| == |e.blocks| == 3 && KeyedAlike(s.frames, e.frames)
    && IsBlock(Content(s.frames), i, s.blocks[i], t) && IsBlock(Content(e.frames), i, e.blocks[i], t)
  }

  lemma PairSlots(s: Snapshot, e: Snapshot, i: int) returns (t: int)
    requires IsSnapshot(s, s.frames) && IsSnapshot(e, e.frames) && KeyedAlike(s.frames, e.frames) && 0 <= i < 3
    ensures SlotPair(s, e, i, t) && |s.blocks[i]| == |e.blocks[i]| == 7 && Numbering(e.frames, i, t)
  {
    hide Content, DecodeBlock, IsBlock, KeyedAlike, IsExtras;
    assert HasBlock(Content(s.frames), i, s.blocks[i]) && HasBlock(Content(e.frames), i, e.blocks[i]);
    t :| IsBlock(Content(s.frames), i, s.blocks[i], t);
    var t' :| IsBlock(Content(e.frames), i, e.blocks[i], t');
    SameTop(s.frames, e.frames, i, s.blocks[i], t, e.blocks[i], t');
    BlockIsComplete(e.frames, i, e.blocks[i], t);
    SlotChunk(Content(s.frames), i, s.blocks[i], t, 0);
    SlotChunk(Content(e.frames), i, e.blocks[i], t, 0);
  }

  /** A differing position in slot `i` leaves a differing chunk; the header, unwrapped, by its day byte alone. */
  lemma DriftAt(s: Snapshot, e: Snapshot, i: int, t: int, k: int)
    requires SlotPair(s, e, i, t) && |s.blocks[i]| == |e.blocks[i]| == 7
    requires Numbering(e.frames, i, t)
    requires 0 <= k < |s.frames| == |e.frames| && s.frames[k] != e.frames[k] && DayByteOnly(s.frames[k], e.frames[k])
    requires Normalize(e.frames[k]).Some? && Normalize(e.frames[k]).value[3] == 0x10 + i
    ensures var f, b, b' := Normalize(e.frames[k]).value, s.blocks[i], e.blocks[i];
            var c := t - f[2];
            && 0 <= c < 7 && b[c] != b'[c] && (IsChunk(e.frames, f, 2) <==> c == 2)
            && if Wrapped(e.frames[k]) then ShiftedByte(b[c], b'[c]) else DayByteOnly(b[c], b'[c])
  {
    hide Content, Normalize, IsBlock, KeyedAlike, DayByteOnly, ShiftedByte;
    var c := t - Normalize(e.frames[k]).value[2];
    PlaceOf(s.frames, e.frames, i, s.blocks[i], e.blocks[i], t, k);
    DriftedChunk(s.frames, e.frames, s.blocks[i], e.blocks[i], t, k, c);
  }

  /** A differing chunk comes from a differing position. */
  lemma DriftFrom(s: Snapshot, e: Snapshot, i: int, t: int, c: int) returns (k: int)
    requires SlotPair(s, e, i, t) && |s.blocks[i]| == |e.blocks[i]| == 7 && 0 <= c < 7
    requires s.blocks[i][c] != e.blocks[i][c]
    ensures 0 <= k < |s.frames| == |e.frames| && s.frames[k] != e.frames[k]
    ensures Normalize(e.frames[k]).Some?
    ensures Normalize(e.frames[k]).value[3] == 0x10 + i && Normalize(e.frames[k]).value[2] == t - c
  {
    hide Content, Normalize, IsBlock, KeyedAlike;
    k := ChunkPlace(s.frames, e.frames, i, s.blocks[i], e.blocks[i], t, c);
    if s.frames[k] == e.frames[k] {
      SamePlaceSameChunk(s.frames, e.frames, s.blocks[i], e.blocks[i], t, k, c);
    }
  }

  /** Outside A/B/C, a fragment of one response is in the other. */
  lemma ExtraKept(s: Snapshot, e: Snapshot, f: NFrame)
    requires DiffersOnlyByPeriodStartDate(s, e) && AllHarmless(s, e) && !Editable(f)
    ensures f in Content(s.frames) <==> f in Content(e.frames)
  {
    hide Normalize, Content, DayByteOnly, IsChunk;
    AcceptedKeys(s, e);
    if f in Content(e.frames) {
      var k, g := Counterpart(s.frames, e.frames, f);
    }
    if f in Content(s.frames) {
      KeyedSymmetric(s.frames, e.frames);
      var k, g := Counterpart(e.frames, s.frames, f);
    }
  }

  lemma ExtrasKept(s: Snapshot, e: Snapshot)
    requires IsSnapshot(s, s.frames) && IsSnapshot(e, e.frames)
    requires DiffersOnlyByPeriodStartDate(s, e) && AllHarmless(s, e)
    ensures s.extras == e.extras
  {
    hide Content, DiffersOnlyByPeriodStartDate, AllHarmless, StrictlySorted, HasBlock, DecodeBlock;
    forall f: NFrame
      ensures f in s.extras <==> f in e.extras
    {
      if !Editable(f) { ExtraKept(s, e, f); }
    }
    SortedUnique(s.extras, e.extras);
  }

  lemma SlotHarmless(s: Snapshot, e: Snapshot, i: int)
    requires IsSnapshot(s, s.frames) && IsSnapshot(e, e.frames) && 0 <= i < 3
    requires DiffersOnlyByPeriodStartDate(s, e) && AllHarmless(s, e)
    ensures DriftedBlock(s.blocks[i], e.blocks[i])
  {
    hide Content, Normalize, IsSnapshot, SlotPair, DayByteOnly, ShiftedByte, IsChunk, Wrapped;
    AcceptedKeys(s, e);
    SnapshotSizes(s);
    SnapshotSizes(e);
    var t := PairSlots(s, e, i);
    forall c | 0 <= c < 7 && s.blocks[i][c] != e.blocks[i][c]
      ensures c == 2 && DayByteOnly(s.blocks[i][c], e.blocks[i][c])
    {
      var k := DriftFrom(s, e, i, t, c);
      DriftAt(s, e, i, t, k);
    }
  }

  /** In a harmless difference every differing frame is harmless. */
  lemma PositionHarmless(s: Snapshot, e: Snapshot, k: int)
    requires IsSnapshot(s, s.frames) && IsSnapshot(e, e.frames) && DiffersOnlyByPeriodStartDate(s, e) && Harmless(s, e)
    requires 0 <= k < |s.frames| && s.frames[k] != e.frames[k]
    ensures HarmlessAt(s, e, k)
  {
    hide Content, IsSnapshot, SlotPair, DayByteOnly, ShiftedByte, IsChunk, Wrapped, Normalize;
    AcceptedKeys(s, e);
    var f, g := Normalize(e.frames[k]), Normalize(s.frames[k]);
    if f.Some? {
      if Editable(f.value) {
        var i := f.value[3] as int - 0x10;
        var t := PairSlots(s, e, i);
        DriftAt(s, e, i, t, k);
        assert DriftedBlock(s.blocks[i], e.blocks[i]);
        LengthsDiffer(s.blocks[i][2], e.blocks[i][2]);
      } else {
        ContentMember(e.frames, e.frames[k]);
        ContentMember(s.frames, s.frames[k]);
        ExtraInBoth(s, e, f.value);
        ExtraInBoth(s, e, g.value);
      }
    }
  }

  lemma LengthsDiffer(f: Frame, g: Frame)
    ensures !(DayByteOnly(f, g) && ShiftedByte(f, g))
  {
  }

  lemma ExtraInBoth(s: Snapshot, e: Snapshot, f: NFrame)
    requires IsSnapshot(s, s.frames) && IsSnapshot(e, e.frames) && s.extras == e.extras && !Editable(f)
    ensures f in Content(s.frames) <==> f in Content(e.frames)
  {
    hide Content, StrictlySorted, HasBlock, DecodeBlock;
  }

  /** An accepted difference is harmless if and only if every differing frame is. */
  lemma AcceptedIsHarmless(s: Snapshot, e: Snapshot)
    requires IsSnapshot(s, s.frames) && IsSnapshot(e, e.frames) && DiffersOnlyByPeriodStartDate(s, e)
    ensures Harmless(s, e) <==> AllHarmless(s, e)
  {
    hide IsSnapshot, DiffersOnlyByPeriodStartDate, DriftedBlock, HarmlessAt;
    SnapshotSizes(s);
    SnapshotSizes(e);
    SameCount(s, e);
    if AllHarmless(s, e) {
      ExtrasKept(s, e);
      forall i | 0 <= i < 3
        ensures DriftedBlock(s.blocks[i], e.blocks[i])
      {
        SlotHarmless(s, e, i);
      }
    }
    if Harmless(s, e) {
      forall k | 0 <= k < |s.frames| && s.frames[k] != e.frames[k]
        ensures HarmlessAt(s, e, k)
      {
        PositionHarmless(s, e, k);
      }
    }
  }

  lemma SameCount(s: Snapshot, e: Snapshot)
    requires DiffersOnlyByPeriodStartDate(s, e)
    ensures |s.frames| == |e.frames|
  {
  }

  // ---- what the decoded programs show ---------------------------------------------------------

  /** Alike but for the controller's own date. */
  predicate Agree(p: Program, q: Program) {
    p == q.(controllerDate := p.controllerDate)
  }

  /** The differing frame is a wrapped program header: its 15 bytes put the interval phase where the test expects
      the day. */
  predicate Misread(e: Snapshot, k: int)
    requires 0 <= k < |e.frames|
  {
    var f := Normalize(e.frames[k]);
    f.Some? && Editable(f.value) && Wrapped(e.frames[k]) && IsChunk(e.frames, f.value, 2)
  }

  predicate NothingMisread(s: Snapshot, e: Snapshot)
    requires |s.frames| == |e.frames|
  {
    forall k :: 0 <= k < |s.frames| && s.frames[k] != e.frames[k] ==> !Misread(e, k)
  }

  /** A header that differs by its day byte, or a last chunk that differs past the two durations it holds. */
  ghost predicate Undecoded(f: Frame, g: Frame, c: int) {
    f == g || (c == 2 && DayByteOnly(f, g)) || (c == 6 && |f| == |g| >= 10 && f[..10] == g[..10])
  }

  lemma DecodesAlike(b: seq<NFrame>, b': seq<NFrame>)
    requires ReadableBlock(b) && ReadableBlock(b') && forall k :: 0 <= k < 7 ==> Undecoded(b[k], b'[k], k)
    ensures Agree(DecodeBlock(b), DecodeBlock(b'))
  {
    assert b[0] == b'[0] && b[1] == b'[1] && b[3] == b'[3] && b[4] == b'[4] && b[5] == b'[5];
    HeaderAlike(b[2], b'[2]);
    LastAlike(b[6], b'[6]);
  }

  lemma HeaderAlike(f: Frame, g: Frame)
    requires Undecoded(f, g, 2) && |f| >= 11
    ensures |f| == |g| && Word16(f, 4) == Word16(g, 4) && Word16(f, 6) == Word16(g, 6)
    ensures f[8] == g[8] && f[9] == g[9] && f[10] == g[10] && (|f| > 11 ==> f[11] == g[11])
  {
    if f != g {
      assert forall k :: 0 <= k < 12 ==> f[k] == f[..12][k] && g[k] == g[..12][k];
    }
  }

  lemma LastAlike(f: Frame, g: Frame)
    requires Undecoded(f, g, 6) && |f| >= 10 && |g| >= 10
    ensures Durations(f, 2) == Durations(g, 2)
  {
    assert forall k :: 0 <= k < 10 ==> f[k] == f[..10][k] && g[k] == g[..10][k];
  }

  /** Only headers and last chunks are 15 or 16 bytes long. */
  lemma ShortChunk(b: seq<NFrame>, b': seq<NFrame>, c: int, wrapped: bool)
    requires ReadableBlock(b) && ReadableBlock(b') && 0 <= c < 7
    requires if wrapped then ShiftedByte(b[c], b'[c]) else DayByteOnly(b[c], b'[c])
    requires c == 2 ==> !wrapped
    ensures Undecoded(b[c], b'[c], c)
  {
    if c == 6 {
      var n := if wrapped then 11 else 12;
      assert b[6][..10] == b[6][..n][..10] && b'[6][..10] == b'[6][..n][..10];
    }
  }

  lemma SlotReadRight(s: Snapshot, e: Snapshot, i: int)
    requires IsSnapshot(s, s.frames) && IsSnapshot(e, e.frames) && 0 <= i < 3
    requires DiffersOnlyByPeriodStartDate(s, e) && NothingMisread(s, e)
    ensures |s.programs| == |e.programs| == 3 && Agree(s.programs[i], e.programs[i])
  {
    hide Content, Normalize, IsSnapshot, SlotPair, DayByteOnly, ShiftedByte, IsChunk, Wrapped, DecodeBlock, Undecoded,
         ReadableBlock, Agree;
    AcceptedKeys(s, e);
    SnapshotBlock(s, i);
    SnapshotBlock(e, i);
    var t := PairSlots(s, e, i);
    forall c | 0 <= c < 7
      ensures Undecoded(s.blocks[i][c], e.blocks[i][c], c)
    {
      if s.blocks[i][c] != e.blocks[i][c] {
        var k := DriftFrom(s, e, i, t, c);
        DriftAt(s, e, i, t, k);
        ShortChunk(s.blocks[i], e.blocks[i], c, Wrapped(e.frames[k]));
      } else {
        SameUndecoded(s.blocks[i][c], c);
      }
    }
    DecodesAlike(s.blocks[i], e.blocks[i]);
  }

  lemma SameUndecoded(f: Frame, c: int)
    ensures Undecoded(f, f, c)
  {
  }

  lemma MisreadPhase(s: Snapshot, e: Snapshot, k: int)
    requires IsSnapshot(s, s.frames) && IsSnapshot(e, e.frames) && DiffersOnlyByPeriodStartDate(s, e)
    requires 0 <= k < |s.frames| == |e.frames| && s.frames[k] != e.frames[k] && Misread(e, k)
    ensures |s.programs| == |e.programs| == 3
    ensures var i := Normalize(e.frames[k]).value[3] as int - 0x10; s.programs[i].synchroDay != e.programs[i].synchroDay
  {
    hide Content, Normalize, IsSnapshot, SlotPair, DayByteOnly, IsChunk;
    AcceptedKeys(s, e);
    var i := Normalize(e.frames[k]).value[3] as int - 0x10;
    SnapshotBlock(s, i);
    SnapshotBlock(e, i);
    var t := PairSlots(s, e, i);
    DriftAt(s, e, i, t, k);
  }

  /** The decoded programs agree but for the controller's date if and only if no differing frame is a wrapped
      program header. */
  lemma AcceptedReadsAlike(s: Snapshot, e: Snapshot)
    requires IsSnapshot(s, s.frames) && IsSnapshot(e, e.frames) && DiffersOnlyByPeriodStartDate(s, e)
    ensures |s.frames| == |e.frames| && |s.programs| == |e.programs| == 3
    ensures (forall i :: 0 <= i < 3 ==> Agree(s.programs[i], e.programs[i])) <==> NothingMisread(s, e)
  {
    hide IsSnapshot, DiffersOnlyByPeriodStartDate, Misread;
    SnapshotSizes(s);
    SnapshotSizes(e);
    SameCount(s, e);
    if NothingMisread(s, e) {
      forall i | 0 <= i < 3
        ensures Agree(s.programs[i], e.programs[i])
      {
        SlotReadRight(s, e, i);
      }
    } else {
      var k :| 0 <= k < |s.frames| && s.frames[k] != e.frames[k] && Misread(e, k);
      MisreadPhase(s, e, k);
      MisreadSlot(e, k);
    }
  }

  lemma MisreadSlot(e: Snapshot, k: int)
    requires 0 <= k < |e.frames| && Misread(e, k)
    ensures Normalize(e.frames[k]).Some? && 0 <= Normalize(e.frames[k]).value[3] as int - 0x10 < 3
  {
  }

  // ---- the standard chunk lengths --------------------------------------------------------------

  /** No fragment of the expectation is 15 bytes long. */
  ghost predicate NoOddFrames(e: Snapshot) {
    && |e.blocks| == 3 && (forall i :: 0 <= i < 3 ==> StandardBlock(e.blocks[i]))
    && forall f :: f in e.extras ==> |f| != 15
  }

  lemma ContentLengths(e: Snapshot, f: NFrame)
    requires IsSnapshot(e, e.frames) && NoOddFrames(e) && f in Content(e.frames)
    ensures |f| != 15
  {
    hide Content, DecodeBlock;
    var c := Content(e.frames);
    if Editable(f) {
      var i := f[3] - 0x10;
      assert HasBlock(c, i, e.blocks[i]);
      var t :| IsBlock(c, i, e.blocks[i], t);
      assert f in SlotOf(c, i);
      SlotFragment(c, i, e.blocks[i], t, f);
    }
  }

  lemma StandardHeader(b: seq<NFrame>, f: Frame, c: int)
    requires StandardBlock(b) && 0 <= c < 7 && DayByteOnly(f, b[c])
    ensures c == 2
  {
  }

  lemma StandardHarmlessAt(s: Snapshot, e: Snapshot, k: int)
    requires IsSnapshot(s, s.frames) && IsSnapshot(e, e.frames) && DiffersOnlyByPeriodStartDate(s, e) && NoOddFrames(e)
    requires 0 <= k < |s.frames| == |e.frames| && s.frames[k] != e.frames[k]
    ensures HarmlessAt(s, e, k)
  {
    hide Content, Normalize, IsSnapshot, SlotPair, DayByteOnly, IsChunk, StandardBlock;
    AcceptedKeys(s, e);
    DriftedFragment(s.frames[k], e.frames[k]);
    var f := Normalize(e.frames[k]);
    if f.Some? {
      ContentMember(e.frames, e.frames[k]);
      ContentLengths(e, f.value);
      var i := f.value[3] as int - 0x10;
      SnapshotBlock(s, i);
      SnapshotBlock(e, i);
      var t := PairSlots(s, e, i);
      DriftAt(s, e, i, t, k);
      StandardHeader(e.blocks[i], s.blocks[i][t - f.value[2]], t - f.value[2]);
    }
  }

  /** So with the standard chunk lengths whatever reconciliation accepts is harmless. */
  lemma DriftIsHarmless(s: Snapshot, e: Snapshot)
    requires IsSnapshot(s, s.frames) && IsSnapshot(e, e.frames) && NoOddFrames(e)
    requires DiffersOnlyByPeriodStartDate(s, e)
    ensures Harmless(s, e)
    ensures |s.programs| == |e.programs| == 3 && forall i :: 0 <= i < 3 ==> Agree(s.programs[i], e.programs[i])
  {
    hide IsSnapshot, DiffersOnlyByPeriodStartDate, NoOddFrames, HarmlessAt, Misread, Harmless, Agree;
    SameCount(s, e);
    forall k | 0 <= k < |s.frames| && s.frames[k] != e.frames[k]
      ensures HarmlessAt(s, e, k) && !Misread(e, k)
    {
      StandardHarmlessAt(s, e, k);
      HarmlessIsRead(s, e, k);
    }
    AcceptedIsHarmless(s, e);
    AcceptedReadsAlike(s, e);
  }

  lemma HarmlessIsRead(s: Snapshot, e: Snapshot, k: int)
    requires 0 <= k < |s.frames| && |s.frames| == |e.frames| && HarmlessAt(s, e, k)
    ensures !Misread(e, k)
  {
    hide Normalize, IsChunk;
  }

  /** Even without a condition on what lies outside A/B/C, standard blocks are read right. */
  lemma StandardBlocksDrift(s: Snapshot, e: Snapshot)
    requires IsSnapshot(s, s.frames) && IsSnapshot(e, e.frames) && DiffersOnlyByPeriodStartDate(s, e)
    requires |e.blocks| == 3 && forall i :: 0 <= i < 3 ==> StandardBlock(e.blocks[i])
    ensures |s.blocks| == |s.programs| == |e.programs| == 3
    ensures forall i :: 0 <= i < 3 ==> DriftedBlock(s.blocks[i], e.blocks[i]) && Agree(s.programs[i], e.programs[i])
  {
    hide IsSnapshot, DiffersOnlyByPeriodStartDate, DriftedBlock, StandardBlock, Agree;
    SnapshotSizes(s);
    SnapshotSizes(e);
    forall i | 0 <= i < 3
      ensures DriftedBlock(s.blocks[i], e.blocks[i]) && Agree(s.programs[i], e.programs[i])
    {
      StandardSlotDrift(s, e, i);
    }
  }

  lemma StandardSlotDrift(s: Snapshot, e: Snapshot, i: int)
    requires IsSnapshot(s, s.frames) && IsSnapshot(e, e.frames) && DiffersOnlyByPeriodStartDate(s, e)
    requires 0 <= i < 3 && |e.blocks| == 3 && StandardBlock(e.blocks[i])
    ensures |s.blocks| == |s.programs| == |e.programs| == 3
    ensures DriftedBlock(s.blocks[i], e.blocks[i]) && Agree(s.programs[i], e.programs[i])
  {
    hide Content, Normalize, IsSnapshot, SlotPair, DayByteOnly, ShiftedByte, IsChunk, Wrapped, DecodeBlock, StandardBlock,
         ReadableBlock, Agree;
    AcceptedKeys(s, e);
    SnapshotBlock(s, i);
    SnapshotBlock(e, i);
    var t := PairSlots(s, e, i);
    forall c | 0 <= c < 7 && s.blocks[i][c] != e.blocks[i][c]
      ensures c == 2 && DayByteOnly(s.blocks[i][c], e.blocks[i][c])
    {
      var k := DriftFrom(s, e, i, t, c);
      DriftAt(s, e, i, t, k);
      NeverFifteen(e.blocks[i], s.blocks[i][c], c);
      if DayByteOnly(s.blocks[i][c], e.blocks[i][c]) { StandardHeader(e.blocks[i], s.blocks[i][c], c); }
    }
    assert DriftedBlock(s.blocks[i], e.blocks[i]);
    DecodesAlike(s.blocks[i], e.blocks[i]);
  }

  lemma NeverFifteen(b: seq<NFrame>, f: Frame, c: int)
    requires StandardBlock(b) && 0 <= c < 7
    ensures !ShiftedByte(f, b[c])
  {
  }

  // ---- the other lengths do slip through --------------------------------------------------------

  /** Chunk `k` of slot `i`, of the standard length unless it is the header of 15 bytes, with the given phase. */
  function Chunk(i: int, k: int, phase: byte, short: bool): (f: NFrame)
    requires 0 <= i < 3 && 0 <= k < 7
    ensures |f| == (if k == 2 && short then 15 else StandardLength(k)) && f[0] == 0x3A && f[2] == k && f[3] == 0x10 + i
  {
    var head := [0x3A, 0x0D, k, 0x10 + i];
    if k == 2 then
      head + [0, 0, 0, 100, 4, 0, 3, phase] + if short then [0, 0, 0] else [0, 0, 0, 0]
    else
      head + seq(StandardLength(k) - 4, o => 0)
  }

  function Block(i: int, phase: byte, short: bool): (b: seq<NFrame>)
    requires 0 <= i < 3
    ensures |b| == 7 && forall k :: 0 <= k < 7 ==> b[k] == Chunk(i, k, phase, short)
  {
    seq(7, k requires 0 <= k < 7 => Chunk(i, k, phase, short))
  }

  lemma BlockShape(i: int, phase: byte, short: bool)
    requires 0 <= i < 3
    ensures SlotBlock(Block(i, phase, short), i)
    ensures var p := DecodeBlock(Block(i, phase, short)); p.cycle == 4 && p.synchroDay == phase as int
  {
    hide Block;
    assert forall k :: 0 <= k < 7 ==> |Block(i, phase, short)[k]| >= MinLength(k);
    var h := Block(i, phase, short)[2];
    assert h[11] == phase;
  }

  /** A response whose program A is in phase `phase`, its 15-byte header wrapped and numbered 0x10. */
  function OddResponse(phase: byte): (frames: seq<Frame>)
    ensures |frames| == 21
  {
    var frames: seq<Frame> := Numbered(Block(0, phase, true), 0x12) + Numbered(Block(1, 1, false), 6) + Numbered(Block(2, 1, false), 6);
    frames[2 := [0x10] + frames[2]]
  }

  function OddSnapshot(phase: byte): (s: Snapshot) {
    var blocks := [Block(0, phase, true), Block(1, 1, false), Block(2, 1, false)];
    BlockShape(0, phase, true);
    BlockShape(1, 1, false);
    BlockShape(2, 1, false);
    Snapshot(OddResponse(phase), blocks, [], [DecodeBlock(blocks[0]), DecodeBlock(blocks[1]), DecodeBlock(blocks[2])])
  }

  lemma OddIsSnapshot(phase: byte)
    ensures IsSnapshot(OddSnapshot(phase), OddResponse(phase)) && OddSnapshot(phase).frames == OddResponse(phase)
    ensures |OddSnapshot(phase).programs| == 3
    ensures OddSnapshot(phase).programs[0].cycle == 4 && OddSnapshot(phase).programs[0].synchroDay == phase as int
  {
    hide DecodeBlock, Block, IsSnapshot, Content, SlotBlock, Normalize;
    BlockShape(0, phase, true);
    BlockShape(1, 1, false);
    BlockShape(2, 1, false);
    NumberedResponse(Block(0, phase, true), Block(1, 1, false), Block(2, 1, false), 0x12, 6, 6);
    var frames: seq<Frame> := Numbered(Block(0, phase, true), 0x12) + Numbered(Block(1, 1, false), 6) + Numbered(Block(2, 1, false), 6);
    NumberedFrame(Block(0, phase, true), 0, 0x12, 2);
    assert frames[2] == WithId(Chunk(0, 2, phase, true), 0x10);
    WrappedContent(frames, 2);
    var s := OddSnapshot(phase).(frames := frames);
    SameContentSameSnapshot(s, frames, OddResponse(phase));
  }

  lemma OddFrame(phase: byte)
    ensures OddResponse(phase)[2] == [0x10, 0x3A, 0x0D, 0x10, 0x10, 0, 0, 0, 100, 4, 0, 3, phase, 0, 0, 0]
  {
    hide Block;
    assert OddResponse(phase)[2] == [0x10] + WithId(Chunk(0, 2, phase, true), 0x10);
  }

  lemma OtherFrame(phase: byte, other: byte, k: int)
    requires 0 <= k < 21 && k != 2
    ensures OddResponse(phase)[k] == OddResponse(other)[k]
  {
    hide Block;
    if k < 7 {
      assert Chunk(0, k, phase, true) == Chunk(0, k, other, true);
    }
  }

  lemma OddFramesDrift()
    ensures OddResponse(1)[2] != OddResponse(2)[2] && DayByteOnly(OddResponse(1)[2], OddResponse(2)[2])
  {
    hide OddResponse;
    OddFrame(1);
    OddFrame(2);
    assert OddResponse(1)[2][12] == 1 && OddResponse(2)[2][12] == 2;
  }

  /** The two responses are complete, the test accepts their difference, and program A starts on another day. */
  lemma OddFrameSlipsThrough()
    ensures var s, e := OddSnapshot(1), OddSnapshot(2);
            && IsSnapshot(s, s.frames) && IsSnapshot(e, e.frames) && DiffersOnlyByPeriodStartDate(s, e)
            && s.programs[0].cycle == e.programs[0].cycle == 4
            && s.programs[0].synchroDay == 1 && e.programs[0].synchroDay == 2
  {
    hide IsSnapshot, OddResponse, OddSnapshot, DayByteOnly;
    OddIsSnapshot(1);
    OddIsSnapshot(2);
    OddFramesDrift();
    forall k | 0 <= k < 21 && k != 2
      ensures OddResponse(1)[k] == OddResponse(2)[k]
    {
      OtherFrame(1, 2, k);
    }
  }
}
