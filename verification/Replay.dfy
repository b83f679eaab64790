/** Writing snapshots back: `write_frames`, `validate_expected_write`, and the revision digest. */
module Replay {
  import opened Options
  import opened Bytes
  import opened Protocol
  import opened Snapshots
  import opened Patching
  import opened Editor

  type Key = (int, int)
  type Store = map<Key, Frame>

  // ---- revisions ---------------------------------------------------------------

  /** The byte stream digested by `revision`: each frame behind its 16-bit length. */
  function Stream(fs: seq<NFrame>): Frame
    requires forall f :: f in fs ==> |f| < 0x1_0000
  {
    if fs == [] then [] else Be16(|fs[0]|) + fs[0] + Stream(fs[1..])
  }

  lemma {:induction false} StreamInjective(fs: seq<NFrame>, gs: seq<NFrame>)
    requires (forall f :: f in fs ==> |f| < 0x1_0000) && (forall g :: g in gs ==> |g| < 0x1_0000)
    requires Stream(fs) == Stream(gs)
    ensures fs == gs
  {
    if fs != [] && gs != [] {
      var f, g, s, t := fs[0], gs[0], Stream(fs[1..]), Stream(gs[1..]);
      var a, b := Be16(|f|) + f + s, Be16(|g|) + g + t;
      assert a == b;
      assert a[0] == |f| / 256 && a[1] == |f| % 256 && b[0] == |g| / 256 && b[1] == |g| % 256;
      assert |f| == |g|;
      assert a[2..2 + |f|] == f && b[2..2 + |g|] == g;
      assert a[2 + |f|..] == s && b[2 + |g|..] == t;
      StreamInjective(fs[1..], gs[1..]);
      assert fs == [f] + fs[1..] && gs == [g] + gs[1..];
    }
  }

  /** No frame is too long for its 16-bit length prefix. */
  predicate Digestible(s: Snapshot) {
    && |s.blocks| == 3 && (forall i :: 0 <= i < 3 ==> |s.blocks[i]| == 7)
    && (forall i, f :: 0 <= i < 3 && f in s.blocks[i] ==> |f| < 0x1_0000)
    && (forall f :: f in s.extras ==> |f| < 0x1_0000)
  }

  /** The revision, up to the injective hash that the source applies to this stream. */
  function Revision(s: Snapshot): Frame
    requires Digestible(s)
  {
    Stream(s.blocks[0] + s.blocks[1] + s.blocks[2] + s.extras)
  }

  /** Equal revisions mean equal blocks and equal extras, and conversely. */
  lemma RevisionIdentifies(s: Snapshot, e: Snapshot)
    requires Digestible(s) && Digestible(e)
    ensures Revision(s) == Revision(e) <==> s.blocks == e.blocks && s.extras == e.extras
  {
    if Revision(s) == Revision(e) {
      var a := s.blocks[0] + s.blocks[1] + s.blocks[2] + s.extras;
      var b := e.blocks[0] + e.blocks[1] + e.blocks[2] + e.extras;
      StreamInjective(a, b);
      assert a[0..7] == s.blocks[0] && b[0..7] == e.blocks[0];
      assert a[7..14] == s.blocks[1] && b[7..14] == e.blocks[1];
      assert a[14..21] == s.blocks[2] && b[14..21] == e.blocks[2];
      assert a[21..] == s.extras && b[21..] == e.extras;
      assert s.blocks == [s.blocks[0], s.blocks[1], s.blocks[2]];
      assert e.blocks == [e.blocks[0], e.blocks[1], e.blocks[2]];
    }
  }

  /** Renumbering the fragments of A, B and C, each slot by its own shift, changes neither acceptance nor blocks,
      extras, programs and revision. */
  lemma NumberingIsIncidental(s: Snapshot, frames: seq<Frame>, shifts: seq<int>)
    requires IsSnapshot(s, s.frames) && Renumbered(Content(s.frames), Content(frames), shifts)
    ensures exists s' :: IsSnapshot(s', frames)
    ensures forall s' :: IsSnapshot(s', frames) ==>
                           s'.blocks == s.blocks && s'.extras == s.extras && s'.programs == s.programs
                           && (Digestible(s) ==> Digestible(s') && Revision(s') == Revision(s))
  {
    hide Content, HasBlock, Stream, IsExtras;
    RenumberedSnapshot(s, s.frames, frames, shifts);
  }

  // ---- chunks by slot and number -----------------------------------------------

  /** The chunks of one program slot in logical order. */
  function Column(s: Snapshot, slot: int): seq<NFrame>
    requires |s.blocks| == 3
  {
    if 0 <= slot < 3 then s.blocks[slot] else SortById(HiddenGroup(s.extras, slot))
  }

  function Keys(s: Snapshot): set<Key>
    requires |s.blocks| == 3
  {
    set i, k | 0 <= i < 16 && 0 <= k < |Column(s, i)| :: (i, k)
  }

  function FrameAt(s: Snapshot, key: Key): NFrame
    requires |s.blocks| == 3 && key in Keys(s)
  {
    Column(s, key.0)[key.1]
  }

  function ByKey(s: Snapshot): map<Key, NFrame>
    requires |s.blocks| == 3
  {
    map key | key in Keys(s) :: FrameAt(s, key)
  }

  /** What the device stores according to a snapshot. */
  function Payloads(s: Snapshot): Store
    requires |s.blocks| == 3
  {
    map key | key in Keys(s) :: FrameAt(s, key)[4..]
  }

  // ---- what a write does to the device -------------------------------------------

  /** The chunk a write frame addresses. */
  function Target(w: Frame): (key: Option<Key>)
    ensures key.Some? ==> |w| >= 4
  {
    if |w| < 4 then None
    else if w[0] == 0x2F then Some((w[3] as int % 16, w[2] as int))
    else if w[0] == 0x37 then Some((w[3] as int % 16, w[2] as int + 2))
    else None
  }

  /** The frame announces its own size, and its key is of the program class. */
  predicate Announced(w: Frame) {
    |w| >= 4 && w[1] as int == |w| - 2 && w[3] / 16 == 1
  }

  /** The device takes only frames that announce their own size; it replaces the addressed chunk and nothing else. */
  function ApplyWrite(d: Store, w: Frame): Store {
    if Announced(w) && Target(w).Some? && Target(w).value in d then d[Target(w).value := w[4..]] else d
  }

  function ApplyWrites(d: Store, ws: seq<Frame>): Store {
    if ws == [] then d else ApplyWrite(ApplyWrites(d, ws[..|ws| - 1]), ws[|ws| - 1])
  }

  lemma {:induction false} ApplyWritesConcat(d: Store, a: seq<Frame>, b: seq<Frame>)
    ensures ApplyWrites(d, a + b) == ApplyWrites(ApplyWrites(d, a), b)
  {
    if b == [] {
      assert a + b == a;
    } else {
      assert (a + b)[..|a + b| - 1] == a + b[..|b| - 1];
      ApplyWritesConcat(d, a, b[..|b| - 1]);
    }
  }

  lemma {:induction false} ApplyWritesKeepsKeys(d: Store, ws: seq<Frame>)
    ensures ApplyWrites(d, ws).Keys == d.Keys
  {
    if ws != [] { ApplyWritesKeepsKeys(d, ws[..|ws| - 1]); }
  }

  // ---- validate_expected_write ------------------------------------------------------

  predicate Aimed(s: Snapshot, w: Frame)
    requires |s.blocks| == 3
  {
    Target(w).Some? && Target(w).value in Keys(s) && 0 <= Target(w).value.1 < 7
  }

  /** The frame is for chunk `k` of slot `i`: the two name chunks have opcode 2f, the others 37 and numbers of their own. */
  predicate Addresses(w: Frame, i: int, k: int) {
    |w| >= 4 && w[3] as int % 16 == i && ((w[0] == 0x2F && w[2] as int == k) || (w[0] == 0x37 && w[2] as int == k - 2))
  }

  lemma AimedMeans(s: Snapshot, w: Frame)
    requires |s.blocks| == 3
    ensures Aimed(s, w) <==> exists i, k :: 0 <= k < 7 && (i, k) in Keys(s) && Addresses(w, i, k)
  {
    hide Keys;
    if Aimed(s, w) { assert Addresses(w, Target(w).value.0, Target(w).value.1); }
  }

  /** Every write addresses an existing chunk of the preflight layout. */
  predicate WellAimed(s: Snapshot, ws: seq<Frame>)
    requires |s.blocks| == 3
  {
    forall n :: 0 <= n < |ws| ==> Aimed(s, ws[n])
  }

  ghost predicate Written(ws: seq<Frame>, key: Key) {
    exists n :: 0 <= n < |ws| && Target(ws[n]) == Some(key)
  }

  /** `expected` is exactly `s` overwritten: same layout, payloads as overwritten, and chunks that no write addresses
      untouched down to their headers. */
  ghost predicate Explains(s: Snapshot, ws: seq<Frame>, e: Snapshot)
    requires |s.blocks| == 3 && |e.blocks| == 3
  {
    && Keys(s) == Keys(e) && WellAimed(s, ws)
    && Payloads(s) + Overlay(ws) == Payloads(e)
    && forall key :: key in Keys(s) && !Written(ws, key) ==> FrameAt(e, key) == FrameAt(s, key)
  }

  /** `validate_expected_write`: accepts exactly the explained expectations. */
  method ValidateExpectedWrite(s: Snapshot, ws: seq<Frame>, e: Snapshot) returns (ok: bool)
    requires |s.blocks| == 3 && |e.blocks| == 3
    ensures ok <==> Explains(s, ws, e)
  {
    hide Keys, FrameAt, Written;
    var current, expected := ByKey(s), ByKey(e);
    assert Keys(s) == current.Keys && Keys(e) == expected.Keys;
    if current.Keys != expected.Keys {
      return false;
    }
    var written := CollectWrites(s, ws);
    if written.None? {
      return false;
    }
    ok := forall key :: key in current.Keys ==>
      if key in written.value then expected[key][4..] == written.value[key] else expected[key] == current[key];
    ValidationSound(s, ws, e, ok);
  }

  /** The last payload written to each chunk. */
  function Overlay(ws: seq<Frame>): Store {
    if ws == [] then map[]
    else
      var d, w := Overlay(ws[..|ws| - 1]), ws[|ws| - 1];
      if Target(w).Some? then d[Target(w).value := w[4..]] else d
  }

  lemma {:induction false} OverlayWritten(ws: seq<Frame>, key: Key)
    ensures key in Overlay(ws) <==> Written(ws, key)
  {
    if ws != [] {
      var n := |ws| - 1;
      OverlayWritten(ws[..n], key);
      if Target(ws[n]) != Some(key) {
        if m :| 0 <= m < |ws| && Target(ws[m]) == Some(key) { assert ws[..n][m] == ws[m]; }
        if m :| 0 <= m < |ws[..n]| && Target(ws[..n][m]) == Some(key) { assert ws[m] == ws[..n][m]; }
      }
    }
  }

  lemma {:induction false} OverlayApplied(d: Store, ws: seq<Frame>)
    requires forall n :: 0 <= n < |ws| ==> Announced(ws[n]) && Target(ws[n]).Some? && Target(ws[n]).value in d
    ensures Overlay(ws).Keys <= d.Keys && ApplyWrites(d, ws) == d + Overlay(ws)
  {
    hide Target, Announced;
    if ws != [] {
      var n := |ws| - 1;
      OverlayApplied(d, ws[..n]);
      ApplyWritesKeepsKeys(d, ws[..n]);
      assert (d + Overlay(ws[..n]))[Target(ws[n]).value := ws[n][4..]] == d + Overlay(ws);
    }
  }

  /** A validated expectation is what a device in the state of `s` holds after frames that announce their sizes. */
  lemma ExplainedMoves(s: Snapshot, ws: seq<Frame>, e: Snapshot)
    requires |s.blocks| == 3 && |e.blocks| == 3 && Explains(s, ws, e) && forall n :: 0 <= n < |ws| ==> Announced(ws[n])
    ensures ApplyWrites(Payloads(s), ws) == Payloads(e)
  {
    hide Keys, FrameAt, Payloads, Overlay, Target, Announced;
    AimedAtPayloads(s, ws);
    OverlayApplied(Payloads(s), ws);
  }

  lemma {:induction false} OverlayConcat(a: seq<Frame>, b: seq<Frame>)
    ensures Overlay(a + b) == Overlay(a) + Overlay(b)
  {
    hide Target;
    if b == [] {
      assert a + b == a;
    } else {
      assert (a + b)[..|a + b| - 1] == a + b[..|b| - 1];
      OverlayConcat(a, b[..|b| - 1]);
    }
  }

  method CollectWrites(s: Snapshot, ws: seq<Frame>) returns (r: Option<Store>)
    requires |s.blocks| == 3
    ensures r.Some? <==> WellAimed(s, ws)
    ensures r.Some? ==> r.value == Overlay(ws)
  {
    hide Keys;
    var written: Store := map[];
    for n := 0 to |ws|
      invariant forall m :: 0 <= m < n ==> Aimed(s, ws[m])
      invariant written == Overlay(ws[..n])
    {
      var w := ws[n];
      if !Aimed(s, w) {
        return None;
      }
      assert ws[..n + 1][..n] == ws[..n];
      written := written[Target(w).value := w[4..]];
    }
    assert ws[..|ws|] == ws;
    r := Some(written);
  }

  lemma PayloadKeys(s: Snapshot)
    requires |s.blocks| == 3
    ensures Payloads(s).Keys == Keys(s)
    ensures forall key :: key in Keys(s) ==> Payloads(s)[key] == FrameAt(s, key)[4..]
  {
  }

  lemma ValidationSound(s: Snapshot, ws: seq<Frame>, e: Snapshot, ok: bool)
    requires |s.blocks| == 3 && |e.blocks| == 3 && Keys(s) == Keys(e) && WellAimed(s, ws)
    requires ok <==> forall key :: key in Keys(s) ==> Checked(s, ws, e, key)
    ensures ok <==> Explains(s, ws, e)
  {
    hide Keys, FrameAt, Written, Payloads, Overlay, Checked, Target;
    AimedAtPayloads(s, ws);
    OverlayAimed(Payloads(s), ws);
    var p := Payloads(s) + Overlay(ws);
    forall key | key in Keys(s)
      ensures key in p && key in Payloads(e)
      ensures Checked(s, ws, e, key) <==>
        p[key] == Payloads(e)[key] && (!Written(ws, key) ==> FrameAt(e, key) == FrameAt(s, key))
    {
      CheckedOne(s, ws, e, key);
    }
    PayloadKeys(e);
    PayloadKeys(s);
    assert p == Payloads(e) <==> forall key :: key in Keys(s) ==> p[key] == Payloads(e)[key];
  }

  lemma {:induction false} OverlayAimed(d: Store, ws: seq<Frame>)
    requires forall n :: 0 <= n < |ws| ==> Target(ws[n]).Some? && Target(ws[n]).value in d
    ensures Overlay(ws).Keys <= d.Keys
  {
    hide Target;
    if ws != [] { OverlayAimed(d, ws[..|ws| - 1]); }
  }

  lemma AimedAtPayloads(s: Snapshot, ws: seq<Frame>)
    requires |s.blocks| == 3 && WellAimed(s, ws)
    ensures forall n :: 0 <= n < |ws| ==> Target(ws[n]).Some? && Target(ws[n]).value in Payloads(s)
  {
  }

  lemma CheckedOne(s: Snapshot, ws: seq<Frame>, e: Snapshot, key: Key)
    requires |s.blocks| == 3 && |e.blocks| == 3 && key in Keys(s) && key in Keys(e)
    ensures var p := Payloads(s) + Overlay(ws);
            && key in p && key in Payloads(e)
            && (Checked(s, ws, e, key) <==>
                p[key] == Payloads(e)[key] && (!Written(ws, key) ==> FrameAt(e, key) == FrameAt(s, key)))
  {
    hide Keys, FrameAt, Written, Overlay;
    PayloadKeys(s);
    PayloadKeys(e);
    OverlayWritten(ws, key);
  }

  /** The comparison made for one chunk. */
  predicate Checked(s: Snapshot, ws: seq<Frame>, e: Snapshot, key: Key)
    requires |s.blocks| == 3 && |e.blocks| == 3 && key in Keys(s) && key in Keys(e)
  {
    if key in Overlay(ws) then FrameAt(e, key)[4..] == Overlay(ws)[key] else FrameAt(e, key) == FrameAt(s, key)
  }

  // ---- writing whole blocks -----------------------------------------------------------

  /** The first `n` chunks of program slot `i`. */
  function BlockStore(b: seq<NFrame>, i: int, n: nat): Store
    requires |b| == 7 && n <= 7
  {
    if n == 0 then map[] else BlockStore(b, i, n - 1)[(i, n - 1) := b[n - 1][4..]]
  }

  lemma BlockStoreKeys(b: seq<NFrame>, i: int, n: nat)
    requires |b| == 7 && n <= 7
    ensures forall key: Key :: key in BlockStore(b, i, n) <==> key.0 == i && 0 <= key.1 < n
    ensures forall k :: 0 <= k < n ==> BlockStore(b, i, n)[(i, k)] == b[k][4..]
  {
  }

  ghost predicate Keyed(b: seq<NFrame>, i: int) {
    StandardBlock(b) && 0 <= i < 16 && forall k :: 0 <= k < 7 ==> b[k][3] == 0x10 + i
  }

  lemma WriteFrameTarget(b: seq<NFrame>, i: int, k: int)
    requires Keyed(b, i) && 0 <= k < 7
    ensures var w := BlockWrites(b)[k]; Announced(w) && Target(w) == Some((i, k)) && w[4..] == b[k][4..]
  {
  }

  lemma {:induction false} BlockWritesApplied(d: Store, b: seq<NFrame>, i: int, n: nat)
    requires Keyed(b, i) && n <= 7 && forall k :: 0 <= k < 7 ==> (i, k) in d
    ensures ApplyWrites(d, BlockWrites(b)[..n]) == d + BlockStore(b, i, n)
  {
    hide BlockWrites, Target, Announced;
    if n > 0 {
      BlockWritesApplied(d, b, i, n - 1);
      WriteFrameTarget(b, i, n - 1);
      assert BlockWrites(b)[..n][..n - 1] == BlockWrites(b)[..n - 1];
      ApplyWritesKeepsKeys(d, BlockWrites(b)[..n - 1]);
    }
  }

  lemma BlockWritten(b: seq<NFrame>, i: int, key: Key)
    requires Keyed(b, i)
    ensures Written(BlockWrites(b), key) <==> key.0 == i && 0 <= key.1 < 7
  {
    hide BlockWrites, Target;
    forall k | 0 <= k < 7
      ensures Target(BlockWrites(b)[k]) == Some((i, k))
    {
      WriteFrameTarget(b, i, k);
    }
    assert |BlockWrites(b)| == 7;
    if key.0 == i && 0 <= key.1 < 7 { assert Target(BlockWrites(b)[key.1]) == Some(key); }
  }

  /** Replacing slot `i` of a snapshot is what sending its seven frames does. */
  lemma BlockExplained(s: Snapshot, i: int, b: seq<NFrame>, e: Snapshot)
    requires |s.blocks| == 3 && 0 <= i < 3 && |s.blocks[i]| == 7 && Keyed(b, i)
    requires e.blocks == s.blocks[i := b] && e.extras == s.extras
    ensures Explains(s, BlockWrites(b), e)
  {
    KeyedLength(b, i);
    hide BlockWrites, Written, Keyed, Column, StandardBlock, Announced;
    var ws := BlockWrites(b);
    ColumnsReplaced(s, i, b, e);
    assert ws[..7] == ws;
    forall n | 0 <= n < |ws|
      ensures Aimed(s, ws[n]) && Announced(ws[n])
    {
      WriteFrameTarget(b, i, n);
    }
    forall key | key in Keys(s) && !Written(ws, key)
      ensures FrameAt(e, key) == FrameAt(s, key)
    {
      BlockWritten(b, i, key);
    }
    AimedAtPayloads(s, ws);
    OverlayApplied(Payloads(s), ws);
    BlockWritesApplied(Payloads(s), b, i, 7);
    BlockStoreKeys(b, i, 7);
    PayloadsReplaced(s, i, b, e);
  }

  lemma KeyedLength(b: seq<NFrame>, i: int)
    requires Keyed(b, i)
    ensures |b| == 7 && StandardBlock(b)
  {
  }

  lemma PayloadsReplaced(s: Snapshot, i: int, b: seq<NFrame>, e: Snapshot)
    requires |s.blocks| == 3 && 0 <= i < 3 && |s.blocks[i]| == 7 && |b| == 7
    requires e.blocks == s.blocks[i := b] && e.extras == s.extras
    ensures Payloads(s) + BlockStore(b, i, 7) == Payloads(e)
  {
    hide BlockStore, Payloads, HiddenGroup;
    var p := Payloads(s) + BlockStore(b, i, 7);
    forall key: Key
      ensures key in p <==> key in Payloads(e)
      ensures key in p && key in Payloads(e) ==> p[key] == Payloads(e)[key]
    {
      PayloadReplacedAt(s, i, b, e, key);
    }
  }

  lemma PayloadReplacedAt(s: Snapshot, i: int, b: seq<NFrame>, e: Snapshot, key: Key)
    requires |s.blocks| == 3 && 0 <= i < 3 && |s.blocks[i]| == 7 && |b| == 7
    requires e.blocks == s.blocks[i := b] && e.extras == s.extras
    ensures var p := Payloads(s) + BlockStore(b, i, 7);
            (key in p <==> key in Payloads(e)) && (key in p && key in Payloads(e) ==> p[key] == Payloads(e)[key])
  {
    ColumnsReplaced(s, i, b, e);
    BlockStoreKeys(b, i, 7);
    PayloadKeys(s);
    PayloadKeys(e);
    hide Column, BlockStore, Keys, Payloads;
  }

  lemma ColumnsReplaced(s: Snapshot, i: int, b: seq<NFrame>, e: Snapshot)
    requires |s.blocks| == 3 && 0 <= i < 3 && |s.blocks[i]| == 7 && |b| == 7
    requires e.blocks == s.blocks[i := b] && e.extras == s.extras
    ensures forall j :: 0 <= j < 16 ==> Column(e, j) == if j == i then b else Column(s, j)
    ensures Keys(e) == Keys(s) && forall k :: 0 <= k < 7 ==> (i, k) in Keys(s)
    ensures forall key :: key in Keys(s) ==> 0 <= key.0 < 16 && (key.0 == i ==> 0 <= key.1 < 7)
  {
  }

  lemma SnapshotBlockKeyed(s: Snapshot, i: int)
    requires IsSnapshot(s, s.frames) && 0 <= i < 3 && StandardBlock(s.blocks[i])
    ensures Keyed(s.blocks[i], i) && forall k :: 0 <= k < 7 ==> s.blocks[i][k][2] == k
  {
  }

  /** Every accepted patch passes the pre-write validation. */
  lemma PatchExplained(s: Snapshot, i: int, cs: seq<Change>, stations: int, ws: seq<Frame>, e: Snapshot)
    requires PatchYields(s, i, cs, stations, ws, e)
    ensures Explains(s, ws, e)
  {
    hide PatchedBlock, DecodeBlock, BlockWrites, Content, KnownExtras;
    var b := PatchedBlock(s.blocks[i], cs);
    if ws == [] {
      NothingExplained(s);
    } else {
      SnapshotBlockKeyed(e, i);
      BlockExplained(s, i, b, e);
    }
  }

  lemma NothingExplained(s: Snapshot)
    requires |s.blocks| == 3
    ensures Explains(s, [], s)
  {
  }

  /** Validated writes chain: the concatenation is validated against the last expectation. */
  lemma ExplainsComposes(s: Snapshot, a: seq<Frame>, m: Snapshot, b: seq<Frame>, e: Snapshot)
    requires |s.blocks| == 3 && |m.blocks| == 3 && |e.blocks| == 3
    requires Explains(s, a, m) && Explains(m, b, e)
    ensures Explains(s, a + b, e)
  {
    hide Keys, FrameAt, Payloads, Target;
    OverlayConcat(a, b);
    assert Payloads(s) + Overlay(a + b) == Payloads(s) + Overlay(a) + Overlay(b);
    forall key
      ensures Written(a + b, key) <==> Written(a, key) || Written(b, key)
    {
      if n :| 0 <= n < |a| && Target(a[n]) == Some(key) {
        assert (a + b)[n] == a[n];
      }
      if n :| 0 <= n < |b| && Target(b[n]) == Some(key) {
        assert (a + b)[|a| + n] == b[n];
      }
    }
  }

  // ---- write_frames ----------------------------------------------------------------------

  /** The writes of the first `n` slots. */
  function SlotWrites(s: Snapshot, n: nat): seq<Frame>
    requires |s.blocks| == 3 && n <= 12 && forall i :: 0 <= i < n ==> StandardBlock(Column(s, i))
  {
    if n == 0 then [] else SlotWrites(s, n - 1) + BlockWrites(Column(s, n - 1))
  }

  predicate Complete(s: Snapshot)
    requires |s.blocks| == 3
  {
    KnownExtras(s.extras) && forall i :: 0 <= i < 12 ==> StandardBlock(Column(s, i))
  }

  /** `write_frames`: all twelve slots in order, or a refusal. */
  method WriteFrames(s: Snapshot) returns (r: Result<seq<Frame>>)
    requires |s.blocks| == 3
    ensures r.Ok? <==> Complete(s)
    ensures r.Ok? ==> r.value == SlotWrites(s, 12)
    ensures r.Err? ==> r.error == InvalidSnapshot
  {
    hide KnownExtras, Column, StandardBlock, BlockWrites;
    if !KnownExtras(s.extras) {
      return Err(InvalidSnapshot);
    }
    var writes: seq<Frame> := [];
    for index := 0 to 12
      invariant forall i :: 0 <= i < index ==> StandardBlock(Column(s, i))
      invariant writes == SlotWrites(s, index)
    {
      var ordered := Column(s, index);
      if !StandardBlock(ordered) {
        return Err(InvalidSnapshot);
      }
      writes := writes + BlockWrites(ordered);
    }
    r := Ok(writes);
  }

  lemma ColumnKeyed(s: Snapshot, i: int)
    requires IsSnapshot(s, s.frames) && 0 <= i < 12 && StandardBlock(Column(s, i))
    ensures Keyed(Column(s, i), i)
  {
  }

  /** A complete snapshot has chunks 0-6 of slots 0-11 and no others. */
  lemma CompleteKeys(s: Snapshot)
    requires |s.blocks| == 3 && Complete(s)
    ensures forall key :: key in Keys(s) <==> 0 <= key.0 < 12 && 0 <= key.1 < 7
  {
    hide SortById, HiddenGroup, KnownGroup;
    forall i | 12 <= i < 16
      ensures Column(s, i) == []
    {
      NoSuchSlot(s, i);
    }
  }

  lemma NoSuchSlot(s: Snapshot, i: int)
    requires |s.blocks| == 3 && KnownExtras(s.extras) && 12 <= i < 16
    ensures Column(s, i) == []
  {
    hide KnownGroup;
    SomeElement(HiddenGroup(s.extras, i));
  }

  lemma {:induction false} SlotsWritten(d: Store, s: Snapshot, n: nat)
    requires |s.blocks| == 3 && IsSnapshot(s, s.frames) && Complete(s) && n <= 12 && d.Keys == Keys(s)
    ensures ApplyWrites(d, SlotWrites(s, n)).Keys == Keys(s)
    ensures forall key :: key in Keys(s) ==>
              ApplyWrites(d, SlotWrites(s, n))[key] == if key.0 < n then FrameAt(s, key)[4..] else d[key]
  {
    hide IsSnapshot, KnownExtras, SortById, HiddenGroup, StandardBlock, BlockWrites, Keyed, Keys, BlockStore;
    CompleteKeys(s);
    ApplyWritesKeepsKeys(d, SlotWrites(s, n));
    if n > 0 {
      SlotsWritten(d, s, n - 1);
      var b, m := Column(s, n - 1), ApplyWrites(d, SlotWrites(s, n - 1));
      ColumnKeyed(s, n - 1);
      KeyedLength(b, n - 1);
      ApplyWritesConcat(d, SlotWrites(s, n - 1), BlockWrites(b));
      assert BlockWrites(b)[..7] == BlockWrites(b);
      BlockWritesApplied(m, b, n - 1, 7);
      forall key | key in Keys(s)
        ensures ApplyWrites(d, SlotWrites(s, n))[key] == if key.0 < n then FrameAt(s, key)[4..] else d[key]
      {
        BlockStoreKeys(b, n - 1, 7);
        assert key == (key.0, key.1);
      }
    }
  }

  /** Replaying a complete snapshot brings any device of that layout back to it, whatever it held. */
  lemma ReplayRestores(d: Store, s: Snapshot)
    requires |s.blocks| == 3 && IsSnapshot(s, s.frames) && Complete(s) && d.Keys == Keys(s)
    ensures ApplyWrites(d, SlotWrites(s, 12)) == Payloads(s)
  {
    hide IsSnapshot, KnownExtras, FrameAt, Keys, SlotWrites, StandardBlock;
    SlotsWritten(d, s, 12);
    PayloadKeys(s);
    var r := ApplyWrites(d, SlotWrites(s, 12));
    forall key | key in Keys(s)
      ensures r[key] == Payloads(s)[key]
    {
      CompleteKeys(s);
    }
  }

  lemma BlockWritesAimed(s: Snapshot, i: int, k: int)
    requires |s.blocks| == 3 && IsSnapshot(s, s.frames) && Complete(s) && 0 <= i < 12 && 0 <= k < 7
    ensures StandardBlock(Column(s, i)) && Aimed(s, BlockWrites(Column(s, i))[k]) && Announced(BlockWrites(Column(s, i))[k])
  {
    hide IsSnapshot, KnownExtras, SortById, HiddenGroup, Keyed, Keys, BlockWrites, Target;
    CompleteKeys(s);
    ColumnKeyed(s, i);
    WriteFrameTarget(Column(s, i), i, k);
  }

  lemma {:induction false} SlotWritesAimed(s: Snapshot, n: nat)
    requires |s.blocks| == 3 && IsSnapshot(s, s.frames) && Complete(s) && n <= 12
    ensures WellAimed(s, SlotWrites(s, n)) && forall k :: 0 <= k < |SlotWrites(s, n)| ==> Announced(SlotWrites(s, n)[k])
  {
    hide IsSnapshot, KnownExtras, SortById, HiddenGroup, StandardBlock, BlockWrites, Keys, Aimed, Target, Column, Announced;
    if n > 0 {
      SlotWritesAimed(s, n - 1);
      var m := n - 1;
      var ws := BlockWrites(Column(s, m));
      forall k | 0 <= k < 7
        ensures Aimed(s, ws[k]) && Announced(ws[k])
      {
        BlockWritesAimed(s, m, k);
      }
    }
  }

  /** Replaying a complete snapshot onto itself passes the pre-write validation. */
  lemma ReplayExplained(s: Snapshot)
    requires |s.blocks| == 3 && IsSnapshot(s, s.frames) && Complete(s)
    ensures Explains(s, SlotWrites(s, 12), s)
  {
    hide IsSnapshot, KnownExtras, FrameAt, Keys, SlotWrites, StandardBlock, Payloads, Announced;
    PayloadKeys(s);
    SlotWritesAimed(s, 12);
    AimedAtPayloads(s, SlotWrites(s, 12));
    OverlayApplied(Payloads(s), SlotWrites(s, 12));
    ReplayRestores(Payloads(s), s);
  }
}
