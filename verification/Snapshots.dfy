/** Complete program snapshots of `ble/snapshot.py`: canonical parsing and its laws. */
module Snapshots {
  import opened Options
  import opened Bytes
  import opened Protocol

  /** Slots A, B and C are the three blocks of seven chunks; `extras` is everything else. */
  datatype Snapshot = Snapshot(
    frames: seq<Frame>, blocks: seq<seq<NFrame>>, extras: seq<NFrame>, programs: seq<Program>)

  // ---- byte-string order --------------------------------------------------

  predicate Less(a: Frame, b: Frame) {
    b != [] && (a == [] || a[0] < b[0] || (a[0] == b[0] && Less(a[1..], b[1..])))
  }

  lemma {:induction false} LessTotal(a: Frame, b: Frame)
    ensures Less(a, b) ==> a != b && !Less(b, a)
    ensures a != b ==> Less(a, b) || Less(b, a)
  {
    if a != [] && b != [] && a[0] == b[0] {
      LessTotal(a[1..], b[1..]);
      assert a == [a[0]] + a[1..] && b == [b[0]] + b[1..];
    }
  }

  lemma {:induction false} LessTransitive(a: Frame, b: Frame, c: Frame)
    requires Less(a, b) && Less(b, c)
    ensures Less(a, c)
  {
    if a != [] && a[0] == b[0] && b[0] == c[0] {
      LessTransitive(a[1..], b[1..], c[1..]);
    }
  }

  ghost predicate StrictlySorted(s: seq<NFrame>) {
    forall i, j :: 0 <= i < j < |s| ==> Less(s[i], s[j])
  }

  /** Adds to a sorted set of frames. */
  function InsertFrame(f: NFrame, s: seq<NFrame>): (r: seq<NFrame>)
    requires StrictlySorted(s)
    ensures StrictlySorted(r)
    ensures forall g :: g in r <==> g == f || g in s
  {
    if s == [] then [f]
    else if f == s[0] then s
    else if Less(f, s[0]) then
      assert forall j :: 0 < j < |s| ==> Less(f, s[j]) by {
        forall j | 0 < j < |s|
          ensures Less(f, s[j])
        {
          LessTransitive(f, s[0], s[j]);
        }
      }
      [f] + s
    else
      LessTotal(f, s[0]);
      var r := InsertFrame(f, s[1..]);
      assert forall g :: g in r ==> g == f || g in s[1..];
      assert forall k :: 0 <= k < |r| ==> r[k] in r;
      [s[0]] + r
  }

  lemma SomeElement(s: seq<NFrame>)
    ensures s != [] ==> exists g :: g in s
  {
    if s != [] { assert s[0] in s; }
  }

  /** A set of frames has one sorted listing. */
  lemma {:induction false} SortedUnique(s: seq<NFrame>, t: seq<NFrame>)
    requires StrictlySorted(s) && StrictlySorted(t)
    requires forall g :: g in s <==> g in t
    ensures s == t
  {
    SomeElement(s);
    SomeElement(t);
    if s != [] && t != [] {
      assert s[0] in t;
      assert t[0] in s;
      var i :| 0 <= i < |s| && s[i] == t[0];
      var j :| 0 <= j < |t| && t[j] == s[0];
      LessTotal(s[0], t[0]);
      assert i == 0 && j == 0;
      forall g: NFrame
        ensures g in s[1..] <==> g in t[1..]
      {
        LessTotal(g, s[0]);
        assert g in s <==> g == s[0] || g in s[1..];
        assert g in t <==> g == t[0] || g in t[1..];
        if g in s[1..] { var k :| 1 <= k < |s| && s[k] == g; }
        if g in t[1..] { var k :| 1 <= k < |t| && t[k] == g; }
      }
      SortedUnique(s[1..], t[1..]);
    }
  }

  // ---- what a response contains -------------------------------------------

  /** The distinct normalised fragments of a response, whatever their order, repetition or wrapping. */
  ghost function Content(frames: seq<Frame>): set<NFrame> {
    set k | 0 <= k < |frames| && Normalize(frames[k]).Some? :: Normalize(frames[k]).value
  }

  ghost function SlotOf(c: set<NFrame>, i: int): set<NFrame> {
    set f | f in c && f[3] == 0x10 + i
  }

  predicate Editable(f: NFrame) {
    0x10 <= f[3] <= 0x12
  }

  /** The fragments of slot `i` are the canonical `block`, numbered down from `top`. */
  ghost predicate IsBlock(c: set<NFrame>, i: int, block: seq<NFrame>, top: int) {
    && Spells(SlotOf(c, i), block, top)
    && forall k :: 0 <= k < 7 ==> block[k][2] == k && block[k][3] == 0x10 + i
  }

  ghost predicate HasBlock(c: set<NFrame>, i: int, block: seq<NFrame>) {
    exists top :: IsBlock(c, i, block, top)
  }

  ghost predicate IsExtras(c: set<NFrame>, extras: seq<NFrame>) {
    StrictlySorted(extras) && forall f :: f in extras <==> f in c && !Editable(f)
  }

  /** `s` is the snapshot that the response `frames` denotes. */
  ghost predicate IsSnapshot(s: Snapshot, frames: seq<Frame>) {
    && s.frames == frames && |s.blocks| == 3 && |s.programs| == 3
    && (forall i :: 0 <= i < 3 ==> HasBlock(Content(frames), i, s.blocks[i]))
    && (forall i :: 0 <= i < 3 ==> ReadableBlock(s.blocks[i]) && s.programs[i] == DecodeBlock(s.blocks[i]))
    && IsExtras(Content(frames), s.extras)
  }

  lemma SnapshotSizes(s: Snapshot)
    requires IsSnapshot(s, s.frames)
    ensures |s.blocks| == |s.programs| == 3
  {
  }

  lemma SnapshotBlock(s: Snapshot, i: int)
    requires IsSnapshot(s, s.frames) && 0 <= i < 3
    ensures |s.blocks| == |s.programs| == 3 && ReadableBlock(s.blocks[i]) && s.programs[i] == DecodeBlock(s.blocks[i])
  {
  }

  lemma SameFrames(s: Snapshot, frames: seq<Frame>)
    requires IsSnapshot(s, frames)
    ensures s.frames == frames
  {
  }

  lemma BlockUnique(c: set<NFrame>, i: int, b: seq<NFrame>, t: int, b': seq<NFrame>, t': int)
    requires IsBlock(c, i, b, t) && IsBlock(c, i, b', t')
    ensures b == b' && t == t'
  {
    hide ReadableBlock;
    assert HasChunk(SlotOf(c, i), b, t, 0) && HasChunk(SlotOf(c, i), b', t', 0);
    forall k | 0 <= k < 7
      ensures b[k] == b'[k]
    {
      assert HasChunk(SlotOf(c, i), b, t, k);
      var f := WithId(b[k], t - k);
      assert f in SlotOf(c, i) && f == WithId(b'[k], t - k);
      assert WithId(f, k) == b[k] && WithId(f, k) == b'[k];
    }
  }

  /** Everything but the captured order of the raw frames is a function of the content. */
  lemma SnapshotDependsOnContent(s: Snapshot, frames: seq<Frame>, s': Snapshot, frames': seq<Frame>)
    requires IsSnapshot(s, frames) && IsSnapshot(s', frames')
    requires Content(frames) == Content(frames')
    ensures s.blocks == s'.blocks && s.extras == s'.extras && s.programs == s'.programs
  {
    hide DecodeBlock, Content, IsBlock, StrictlySorted;
    forall i | 0 <= i < 3
      ensures s.blocks[i] == s'.blocks[i]
    {
      assert HasBlock(Content(frames), i, s.blocks[i]) && HasBlock(Content(frames), i, s'.blocks[i]);
      var t :| IsBlock(Content(frames), i, s.blocks[i], t);
      var t' :| IsBlock(Content(frames), i, s'.blocks[i], t');
      BlockUnique(Content(frames), i, s.blocks[i], t, s'.blocks[i], t');
    }
    SortedUnique(s.extras, s'.extras);
  }

  /** Acceptance, too, is a matter of content. */
  lemma SameContentSameSnapshot(s: Snapshot, frames: seq<Frame>, frames': seq<Frame>)
    requires IsSnapshot(s, frames) && Content(frames) == Content(frames')
    ensures IsSnapshot(s.(frames := frames'), frames')
  {
  }

  /** Order, repetition and the `10` wrapper do not change the content. */
  lemma ContentIgnoresArrival(a: seq<Frame>, b: seq<Frame>)
    requires forall f :: f in a ==> f in b || (|f| >= 2 && f[0] == 0x10 && f[1] != 0x10 && f[1..] in b && Normalize(f[1..]).Some?)
    requires forall f :: f in b ==> f in a || (f != [] && f[0] != 0x10 && [0x10] + f in a && Normalize(f).Some?)
    ensures Content(a) == Content(b)
  {
    hide Normalize;
    forall g
      ensures g in Content(a) <==> g in Content(b)
    {
      if g in Content(a) {
        var k :| 0 <= k < |a| && Normalize(a[k]) == Some(g);
        assert a[k] in a;
        if a[k] !in b { WrapperIgnored(a[k][1..]); assert [0x10] + a[k][1..] == a[k]; ContentMember(b, a[k][1..]); }
        else { ContentMember(b, a[k]); }
      }
      if g in Content(b) {
        var k :| 0 <= k < |b| && Normalize(b[k]) == Some(g);
        assert b[k] in b;
        if b[k] !in a { WrapperIgnored(b[k]); ContentMember(a, [0x10] + b[k]); } else { ContentMember(a, b[k]); }
      }
    }
  }

  lemma WrapperIgnored(f: Frame)
    requires Normalize(f).Some? && f != [] && f[0] != 0x10
    ensures Normalize([0x10] + f) == Normalize(f)
  {
    assert ([0x10] + f)[1..] == f && ([0x10] + f)[2..] == f[1..];
  }

  lemma FromContent(frames: seq<Frame>, f: NFrame) returns (k: int)
    requires f in Content(frames)
    ensures 0 <= k < |frames| && Normalize(frames[k]) == Some(f)
  {
    k :| 0 <= k < |frames| && Normalize(frames[k]) == Some(f);
  }

  lemma ContentMember(frames: seq<Frame>, f: Frame)
    requires f in frames && Normalize(f).Some?
    ensures Normalize(f).value in Content(frames)
  {
  }

  lemma SlotFragment(c: set<NFrame>, i: int, b: seq<NFrame>, t: int, f: NFrame)
    requires IsBlock(c, i, b, t) && f in SlotOf(c, i)
    ensures |b| == 7 && 6 <= t < 256 && 0 <= t - f[2] < 7 && f == WithId(b[t - f[2]], f[2])
  {
  }

  /** Two responses whose slot `i` differs only by a shift of its fragment numbering. */
  ghost predicate Shifted(c: set<NFrame>, c': set<NFrame>, i: int, d: int) {
    && (forall f :: f in SlotOf(c, i) ==> 0 <= f[2] + d < 256 && WithId(f, f[2] + d) in c')
    && (forall f :: f in SlotOf(c', i) ==> 0 <= f[2] - d < 256 && WithId(f, f[2] - d) in c)
  }

  lemma ShiftedMember(c: set<NFrame>, c': set<NFrame>, i: int, d: int, f: NFrame)
    requires Shifted(c, c', i, d) && f in SlotOf(c, i)
    ensures 0 <= f[2] + d < 256 && WithId(f, f[2] + d) in SlotOf(c', i)
  {
  }

  lemma ShiftedChunk(c: set<NFrame>, c': set<NFrame>, i: int, d: int, b: seq<NFrame>, t: int, k: int)
    requires IsBlock(c, i, b, t) && Shifted(c, c', i, d) && 0 <= k < 7
    ensures |b| == 7 && 6 <= t < 256 && 0 <= t - k + d < 256 && WithId(b[k], t - k + d) in SlotOf(c', i)
  {
    hide IsBlock, Shifted, SlotOf;
    ChunkInSlot(c, i, b, t, k);
    var f := WithId(b[k], t - k);
    ShiftedMember(c, c', i, d, f);
    assert WithId(f, f[2] + d) == WithId(b[k], t - k + d);
  }

  lemma ShiftedFragment(c: set<NFrame>, c': set<NFrame>, i: int, d: int, b: seq<NFrame>, t: int, f: NFrame)
    requires IsBlock(c, i, b, t) && Shifted(c, c', i, d) && f in SlotOf(c', i)
    ensures 0 <= t + d - f[2] < 7 && f == WithId(b[t + d - f[2]], f[2])
  {
    hide ReadableBlock;
    var g := WithId(f, f[2] - d);
    assert g in SlotOf(c, i);
    assert g == WithId(b[t - g[2]], g[2]);
    assert f == WithId(g, f[2]);
  }

  /** The canonical block of an editable slot does not depend on where its numbering starts. */
  lemma BaseIsIncidental(c: set<NFrame>, c': set<NFrame>, i: int, d: int, b: seq<NFrame>)
    requires HasBlock(c, i, b) && Shifted(c, c', i, d)
    ensures HasBlock(c', i, b)
  {
    hide SlotOf, Shifted, ReadableBlock;
    var t :| IsBlock(c, i, b, t);
    var u := t + d;
    ShiftedChunk(c, c', i, d, b, t, 0);
    ShiftedChunk(c, c', i, d, b, t, 6);
    forall k | 0 <= k < 7
      ensures HasChunk(SlotOf(c', i), b, u, k)
    {
      ShiftedChunk(c, c', i, d, b, t, k);
    }
    forall f | f in SlotOf(c', i)
      ensures 0 <= t + d - f[2] < 7 && f == WithId(b[t + d - f[2]], f[2])
    {
      ShiftedFragment(c, c', i, d, b, t, f);
    }
    assert IsBlock(c', i, b, u);
  }

  /** Two responses that differ at most by how the fragments of A, B and C are numbered. */
  ghost predicate Renumbered(c: set<NFrame>, c': set<NFrame>, shifts: seq<int>) {
    && |shifts| == 3 && (forall i :: 0 <= i < 3 ==> Shifted(c, c', i, shifts[i]))
    && forall f :: f !in c' + c || Editable(f) || (f in c && f in c')
  }

  /** Such responses denote the same snapshot. */
  lemma RenumberedSnapshot(s: Snapshot, frames: seq<Frame>, frames': seq<Frame>, shifts: seq<int>)
    requires IsSnapshot(s, frames) && Renumbered(Content(frames), Content(frames'), shifts)
    ensures IsSnapshot(s.(frames := frames'), frames')
    ensures forall s' :: IsSnapshot(s', frames') ==>
                           s'.blocks == s.blocks && s'.extras == s.extras && s'.programs == s.programs
  {
    hide Content, HasBlock, DecodeBlock, ReadableBlock, Shifted, StrictlySorted;
    forall i | 0 <= i < 3
      ensures HasBlock(Content(frames'), i, s.blocks[i])
    {
      BaseIsIncidental(Content(frames), Content(frames'), i, shifts[i], s.blocks[i]);
    }
    forall s' | IsSnapshot(s', frames')
      ensures s'.blocks == s.blocks && s'.extras == s.extras && s'.programs == s.programs
    {
      SnapshotDependsOnContent(s', frames', s.(frames := frames'), frames');
    }
  }

  // ---- responses with nothing but A, B and C -------------------------------

  /** Seven readable chunks of slot `i`, numbered canonically. */
  predicate SlotBlock(b: seq<NFrame>, i: int): (r: bool)
    ensures r ==> |b| == 7
  {
    && ReadableBlock(b) && 0 <= i < 3
    && forall k :: 0 <= k < 7 ==> b[k][0] in [0x2F, 0x37, 0x39, 0x3A] && b[k][2] == k && b[k][3] == 0x10 + i
  }

  /** The same chunks with fragment ids from `top` down. */
  function Numbered(b: seq<NFrame>, top: int): (r: seq<NFrame>)
    requires |b| == 7 && 6 <= top < 256
    ensures |r| == 7 && forall k :: 0 <= k < 7 ==> r[k] == WithId(b[k], top - k)
  {
    seq(7, k requires 0 <= k < 7 => WithId(b[k], top - k))
  }

  lemma NumberedFrame(b: seq<NFrame>, i: int, top: int, k: int)
    requires SlotBlock(b, i) && 6 <= top < 256 && 0 <= k < 7
    ensures var f := WithId(b[k], top - k); Normalize(f) == Some(f) && f[3] == 0x10 + i
  {
  }

  lemma NumberedContent(b: seq<NFrame>, i: int, top: int)
    requires SlotBlock(b, i) && 6 <= top < 256
    ensures forall f :: f in Content(Numbered(b, top)) <==> f in Numbered(b, top)
    ensures forall f :: f in Numbered(b, top) ==> f[3] == 0x10 + i
  {
    hide Normalize, SlotBlock;
    forall k | 0 <= k < 7
      ensures Normalize(Numbered(b, top)[k]) == Some(Numbered(b, top)[k]) && Numbered(b, top)[k][3] == 0x10 + i
    {
      NumberedFrame(b, i, top, k);
    }
  }

  lemma NumberedIsBlock(c: set<NFrame>, b: seq<NFrame>, i: int, top: int)
    requires SlotBlock(b, i) && 6 <= top < 256 && forall f :: f in SlotOf(c, i) <==> f in Numbered(b, top)
    ensures HasBlock(c, i, b)
  {
    hide SlotOf, ReadableBlock;
    var r := Numbered(b, top);
    forall k | 0 <= k < 7
      ensures HasChunk(SlotOf(c, i), b, top, k)
    {
      assert r[k] in r;
    }
    forall f | f in SlotOf(c, i)
      ensures 0 <= top - f[2] < 7 && f == WithId(b[top - f[2]], f[2])
    {
      var k :| 0 <= k < 7 && f == r[k];
    }
    assert IsBlock(c, i, b, top);
  }

  lemma NumberedSlots(a: seq<NFrame>, b: seq<NFrame>, c: seq<NFrame>, ta: int, tb: int, tc: int, frames: seq<Frame>)
    requires SlotBlock(a, 0) && SlotBlock(b, 1) && SlotBlock(c, 2) && 6 <= ta < 256 && 6 <= tb < 256 && 6 <= tc < 256
    requires frames == Numbered(a, ta) + Numbered(b, tb) + Numbered(c, tc)
    ensures forall f :: f in SlotOf(Content(frames), 0) <==> f in Numbered(a, ta)
    ensures forall f :: f in SlotOf(Content(frames), 1) <==> f in Numbered(b, tb)
    ensures forall f :: f in SlotOf(Content(frames), 2) <==> f in Numbered(c, tc)
    ensures IsExtras(Content(frames), [])
  {
    hide Content, SlotBlock;
    NumberedContent(a, 0, ta);
    NumberedContent(b, 1, tb);
    NumberedContent(c, 2, tc);
    var x, y, z := Numbered(a, ta), Numbered(b, tb), Numbered(c, tc);
    ContentSplit(frames, 14);
    ContentSplit(frames[..14], 7);
    assert frames[..14][..7] == x && frames[..14][7..] == y && frames[14..] == z;
  }

  /** Three blocks, numbered from any ids, form a complete response. */
  lemma NumberedResponse(a: seq<NFrame>, b: seq<NFrame>, c: seq<NFrame>, ta: int, tb: int, tc: int)
    requires SlotBlock(a, 0) && SlotBlock(b, 1) && SlotBlock(c, 2) && 6 <= ta < 256 && 6 <= tb < 256 && 6 <= tc < 256
    ensures var frames: seq<Frame> := Numbered(a, ta) + Numbered(b, tb) + Numbered(c, tc);
            IsSnapshot(Snapshot(frames, [a, b, c], [], [DecodeBlock(a), DecodeBlock(b), DecodeBlock(c)]), frames)
  {
    hide Content, SlotOf, DecodeBlock, HasBlock, IsExtras, StrictlySorted, Numbered;
    var frames: seq<Frame> := Numbered(a, ta) + Numbered(b, tb) + Numbered(c, tc);
    NumberedSlots(a, b, c, ta, tb, tc, frames);
    NumberedIsBlock(Content(frames), a, 0, ta);
    NumberedIsBlock(Content(frames), b, 1, tb);
    NumberedIsBlock(Content(frames), c, 2, tc);
  }

  /** One frame may as well arrive wrapped. */
  lemma WrappedContent(frames: seq<Frame>, k: int)
    requires 0 <= k < |frames| && frames[k] != [] && frames[k][0] != 0x10 && Normalize(frames[k]).Some?
    ensures Content(frames[k := [0x10] + frames[k]]) == Content(frames)
  {
    hide Normalize;
    WrapperIgnored(frames[k]);
    var wrapped := frames[k := [0x10] + frames[k]];
    assert forall j :: 0 <= j < |frames| ==> Normalize(wrapped[j]) == Normalize(frames[j]);
    forall f: NFrame
      ensures f in Content(wrapped) <==> f in Content(frames)
    {
    }
  }

  // ---- parsing ------------------------------------------------------------

  /** The normalised fragments of program `i`, in order of arrival. */
  function Fragments(frames: seq<Frame>, i: int): (r: seq<NFrame>)
    ensures forall f :: f in r ==> f[3] == 0x10 + i
  {
    if frames == [] then []
    else
      var n := Normalize(frames[0]);
      (if n.Some? && n.value[3] == 0x10 + i then [n.value] else []) + Fragments(frames[1..], i)
  }

  lemma {:induction false} FragmentsAreTheSlot(frames: seq<Frame>, i: int)
    ensures forall g :: g in Fragments(frames, i) <==> g in SlotOf(Content(frames), i)
  {
    if frames != [] {
      FragmentsAreTheSlot(frames[1..], i);
      ContentSplit(frames, 1);
    }
  }

  lemma ContentSplit(frames: seq<Frame>, n: nat)
    requires n <= |frames|
    ensures Content(frames) == Content(frames[..n]) + Content(frames[n..])
  {
  }

  lemma ContentAppend(frames: seq<Frame>, n: nat)
    requires n < |frames|
    ensures var v := Normalize(frames[n]);
            Content(frames[..n + 1]) == Content(frames[..n]) + if v.Some? then {v.value} else {}
  {
  }

  function MaxId(frags: seq<NFrame>): (m: int)
    requires frags != []
    ensures forall f :: f in frags ==> f[2] <= m
    ensures exists f :: f in frags && f[2] == m
  {
    if |frags| == 1 then
      assert frags[0] in frags;
      frags[0][2]
    else
      var m := MaxId(frags[1..]);
      assert forall f :: f in frags ==> f == frags[0] || f in frags[1..];
      assert frags[0] in frags;
      if frags[0][2] > m then frags[0][2] else m
  }

  /** `irrigation_program_complete`: counting down from the highest id, all seven chunks are there. */
  predicate ProgramComplete(frags: seq<NFrame>) {
    frags != [] && forall k :: 0 <= k < 7 ==> HasReadableChunk(frags, MaxId(frags), k)
  }

  predicate HasReadableChunk(frags: seq<NFrame>, first: int, k: int)
    requires 0 <= k < 7
  {
    exists f :: f in frags && first - f[2] == k && |f| >= MinLength(k)
  }

  type Group = map<int, NFrame>

  /** The fragments of slot `i` in `c`, keyed by fragment id, without conflict. */
  ghost predicate Groups(c: set<NFrame>, i: int, g: Group) {
    && (forall f :: f in SlotOf(c, i) ==> f[2] in g && g[f[2]] == f)
    && (forall id :: id in g ==> g[id] in SlotOf(c, i) && g[id][2] == id)
  }

  function Range(lo: int, n: nat): (r: set<int>)
    ensures |r| == n && forall k :: k in r <==> lo <= k < lo + n
  {
    if n == 0 then {} else Range(lo, n - 1) + {lo + n - 1}
  }

  /** Seven distinct ids spanning six are consecutive, and only those. */
  lemma Consecutive(ids: set<int>, top: int)
    requires forall id :: id in ids ==> top - 6 <= id <= top
    ensures |ids| == 7 <==> forall id :: top - 6 <= id <= top ==> id in ids
  {
    var all := Range(top - 6, 7);
    assert ids <= all;
    assert |all - ids| == |all| - |ids|;
    if |ids| == 7 {
      assert all - ids == {};
      forall id | top - 6 <= id <= top
        ensures id in ids
      {
        assert id in all && id !in all - ids;
      }
    } else {
      assert all != ids;
    }
  }

  predicate SpansSix(g: Group, top: int) {
    top in g && top - 6 in g && forall id :: id in g ==> top - 6 <= id <= top
  }

  ghost predicate Contiguous(g: Group, top: int) {
    forall id :: id in g <==> top - 6 <= id <= top
  }

  /** The canonical block of a group of seven consecutive fragments. */
  function Canonical(g: Group, top: int): (b: seq<NFrame>)
    requires Contiguous(g, top)
    ensures |b| == 7 && forall k :: 0 <= k < 7 ==> b[k] == WithId(g[top - k], k)
  {
    seq(7, k requires 0 <= k < 7 => WithId(g[top - k], k))
  }

  lemma SevenAreContiguous(g: Group, top: int)
    requires SpansSix(g, top)
    ensures |g| == 7 <==> Contiguous(g, top)
  {
    assert |g| == |g.Keys|;
    Consecutive(g.Keys, top);
  }

  lemma CanonicalChunk(c: set<NFrame>, i: int, g: Group, top: int, k: int)
    requires Groups(c, i, g) && Contiguous(g, top) && 6 <= top < 256 && 0 <= k < 7
    ensures var b := Canonical(g, top);
            HasChunk(SlotOf(c, i), b, top, k) && b[k][2] == k && b[k][3] == 0x10 + i && |b[k]| == |g[top - k]|
  {
    assert top - k in g;
    Renumber(g[top - k], k, top - k);
  }

  lemma CanonicalFragment(c: set<NFrame>, i: int, g: Group, top: int, f: NFrame)
    requires Groups(c, i, g) && Contiguous(g, top) && f in SlotOf(c, i)
    ensures 0 <= top - f[2] < 7 && f == WithId(Canonical(g, top)[top - f[2]], f[2])
  {
  }

  lemma CanonicalIsBlock(frames: seq<Frame>, i: int, g: Group, top: int)
    requires Groups(Content(frames), i, g) && Contiguous(g, top) && 6 <= top < 256
    requires ProgramComplete(Fragments(frames, i))
    ensures IsBlock(Content(frames), i, Canonical(g, top), top)
  {
    hide Content, MinLength, MaxId, ProgramComplete, Groups, Contiguous, SlotOf, HasChunk;
    var c, b := Content(frames), Canonical(g, top);
    forall k | 0 <= k < 7
      ensures HasChunk(SlotOf(c, i), b, top, k) && b[k][2] == k && b[k][3] == 0x10 + i && |b[k]| >= MinLength(k)
    {
      CanonicalChunk(c, i, g, top, k);
      CompleteChunk(frames, i, g, top, k);
    }
    forall f | f in SlotOf(c, i)
      ensures 0 <= top - f[2] < 7 && f == WithId(b[top - f[2]], f[2])
    {
      CanonicalFragment(c, i, g, top, f);
    }
  }

  lemma CompleteChunk(frames: seq<Frame>, i: int, g: Group, top: int, k: int)
    requires Groups(Content(frames), i, g) && Contiguous(g, top) && 0 <= k < 7
    requires ProgramComplete(Fragments(frames, i))
    ensures top - k in g && |g[top - k]| >= MinLength(k)
  {
    hide Content, MinLength, Fragments;
    FragmentsAreTheSlot(frames, i);
    assert HasReadableChunk(Fragments(frames, i), MaxId(Fragments(frames, i)), k);
    GroupMax(Fragments(frames, i), SlotOf(Content(frames), i), g, top);
    var f :| f in Fragments(frames, i) && top - f[2] == k && |f| >= MinLength(k);
    assert f == g[f[2]];
  }

  lemma GroupMax(frags: seq<NFrame>, slot: set<NFrame>, g: Group, top: int)
    requires frags != [] && (forall f :: f in frags <==> f in slot) && Contiguous(g, top)
    requires forall f :: f in slot ==> f[2] in g
    requires forall id :: id in g ==> g[id] in slot && g[id][2] == id
    ensures MaxId(frags) == top
  {
    assert top in g && g[top] in frags;
  }

  lemma BlockIsComplete(frames: seq<Frame>, i: int, b: seq<NFrame>, top: int)
    requires IsBlock(Content(frames), i, b, top)
    ensures ProgramComplete(Fragments(frames, i)) && MaxId(Fragments(frames, i)) == top
  {
    hide Content, IsBlock, HasReadableChunk, Fragments, MaxId;
    TopOfFragments(frames, i, b, top);
    forall k | 0 <= k < 7
      ensures HasReadableChunk(Fragments(frames, i), top, k)
    {
      ChunkReceived(frames, i, b, top, k);
    }
  }

  lemma TopOfFragments(frames: seq<Frame>, i: int, b: seq<NFrame>, top: int)
    requires IsBlock(Content(frames), i, b, top)
    ensures Fragments(frames, i) != [] && MaxId(Fragments(frames, i)) == top
  {
    hide Content, IsBlock, SlotOf;
    var c, frags := Content(frames), Fragments(frames, i);
    FragmentsAreTheSlot(frames, i);
    TopFragment(c, i, b, top);
    assert WithId(b[0], top) in frags;
  }

  lemma ChunkReceived(frames: seq<Frame>, i: int, b: seq<NFrame>, top: int, k: int)
    requires IsBlock(Content(frames), i, b, top) && 0 <= k < 7
    ensures HasReadableChunk(Fragments(frames, i), top, k)
  {
    hide Content, IsBlock, SlotOf, MinLength;
    FragmentsAreTheSlot(frames, i);
    ChunkInSlot(Content(frames), i, b, top, k);
    assert WithId(b[k], top - k) in Fragments(frames, i);
  }

  lemma TopFragment(c: set<NFrame>, i: int, b: seq<NFrame>, top: int)
    requires IsBlock(c, i, b, top)
    ensures 6 <= top < 256 && |b| == 7 && WithId(b[0], top) in SlotOf(c, i) && forall f :: f in SlotOf(c, i) ==> f[2] <= top
  {
    hide ReadableBlock, SlotOf;
    assert HasChunk(SlotOf(c, i), b, top, 0);
  }

  lemma ChunkInSlot(c: set<NFrame>, i: int, b: seq<NFrame>, top: int, k: int)
    requires IsBlock(c, i, b, top) && 0 <= k < 7
    ensures 6 <= top < 256 && |b| == 7 && WithId(b[k], top - k) in SlotOf(c, i) && |b[k]| >= MinLength(k)
  {
    hide SlotOf;
    assert HasChunk(SlotOf(c, i), b, top, k);
  }

  lemma BlockFillsGroup(frames: seq<Frame>, i: int, b: seq<NFrame>, top: int, g: Group)
    requires IsBlock(Content(frames), i, b, top) && Groups(Content(frames), i, g)
    ensures |g| == 7 && SpansSix(g, top)
  {
    hide Content, ReadableBlock;
    forall id | top - 6 <= id <= top
      ensures id in g
    {
      assert HasChunk(SlotOf(Content(frames), i), b, top, top - id);
    }
    assert top - 6 in g && top in g;
    SevenAreContiguous(g, top);
  }

  // The three reasons to reject a response.

  lemma IncompleteIsNoSnapshot(frames: seq<Frame>, i: int)
    requires 0 <= i < 3 && !ProgramComplete(Fragments(frames, i))
    ensures forall s :: !IsSnapshot(s, frames)
  {
    hide ProgramComplete, IsBlock;
    forall s | IsSnapshot(s, frames)
      ensures false
    {
      assert HasBlock(Content(frames), i, s.blocks[i]);
      var top :| IsBlock(Content(frames), i, s.blocks[i], top);
      BlockIsComplete(frames, i, s.blocks[i], top);
    }
  }

  lemma ConflictIsNoSnapshot(frames: seq<Frame>, i: int, f: NFrame, g: NFrame)
    requires 0 <= i < 3 && f in SlotOf(Content(frames), i) && g in SlotOf(Content(frames), i)
    requires g[2] == f[2] && f != g
    ensures forall s :: !IsSnapshot(s, frames)
  {
    hide Content;
    forall s | IsSnapshot(s, frames)
      ensures false
    {
      assert HasBlock(Content(frames), i, s.blocks[i]);
      var top :| IsBlock(Content(frames), i, s.blocks[i], top);
    }
  }

  lemma BadLayoutIsNoSnapshot(frames: seq<Frame>, i: int, g: Group)
    requires 0 <= i < 3 && Groups(Content(frames), i, g) && ProgramComplete(Fragments(frames, i))
    requires |g| != 7 || !SpansSix(g, MaxId(Fragments(frames, i)))
    ensures forall s :: !IsSnapshot(s, frames)
  {
    hide IsBlock, SpansSix, Groups;
    forall s | IsSnapshot(s, frames)
      ensures false
    {
      assert HasBlock(Content(frames), i, s.blocks[i]);
      var top :| IsBlock(Content(frames), i, s.blocks[i], top);
      BlockIsComplete(frames, i, s.blocks[i], top);
      BlockFillsGroup(frames, i, s.blocks[i], top, g);
    }
  }

  /** The dictionaries `from_frames` fills while it walks the response. */
  datatype Intake = Intake(groups: seq<Group>, extras: seq<NFrame>)

  ghost predicate IntakeOf(t: Intake, c: set<NFrame>) {
    |t.groups| == 3 && (forall i :: 0 <= i < 3 ==> Groups(c, i, t.groups[i])) && IsExtras(c, t.extras)
  }

  function Put(group: Group, frame: NFrame): Group {
    var id: int := frame[2];
    group[id := frame]
  }

  /** Takes in one normalised fragment; `None` is a conflict. */
  function Receive(t: Intake, frame: NFrame): Option<Intake>
    requires |t.groups| == 3 && StrictlySorted(t.extras)
  {
    var index := frame[3] % 16;
    if frame[3] / 16 != 1 || index > 2 then Some(t.(extras := InsertFrame(frame, t.extras)))
    else
      var group, id: int := t.groups[index], frame[2];
      if id in group && group[id] != frame then None
      else Some(t.(groups := t.groups[index := Put(group, frame)]))
  }

  lemma ReceiveKeepsIntake(t: Intake, c: set<NFrame>, f: NFrame)
    requires IntakeOf(t, c)
    ensures var r := Receive(t, f);
            if r.Some? then IntakeOf(r.value, c + {f})
            else Editable(f) && exists g :: g in SlotOf(c, f[3] - 0x10) && g[2] == f[2] && g != f
  {
  }

  /** `ProgramSnapshot.from_frames`: accepts exactly the responses that denote a snapshot. */
  method FromFrames(frames: seq<Frame>) returns (r: Result<Snapshot>)
    ensures r.Ok? ==> IsSnapshot(r.value, frames)
    ensures r.Err? ==> r.error == InvalidSnapshot && forall s :: !IsSnapshot(s, frames)
  {
    hide IsSnapshot, IntakeOf, ProgramComplete, Content;
    for i := 0 to 3
      invariant forall j :: 0 <= j < i ==> ProgramComplete(Fragments(frames, j))
    {
      if !ProgramComplete(Fragments(frames, i)) {
        IncompleteIsNoSnapshot(frames, i);
        return Err(InvalidSnapshot);
      }
    }
    var intake := Collect(frames);
    if intake.None? {
      return Err(InvalidSnapshot);
    }
    r := Build(frames, intake.value);
  }

  /** Fills the per-slot dictionaries and the sorted extras; `None` is a conflict. */
  method Collect(frames: seq<Frame>) returns (r: Option<Intake>)
    ensures r.Some? ==> IntakeOf(r.value, Content(frames))
    ensures r.None? ==> forall s :: !IsSnapshot(s, frames)
  {
    hide IsSnapshot, IntakeOf, Receive, Content;
    var intake := Intake([map[], map[], map[]], []);
    EmptyIntake(intake);
    assert frames[..0] == [];
    for n := 0 to |frames|
      invariant IntakeOf(intake, Content(frames[..n]))
    {
      ContentAppend(frames, n);
      var frame := Normalize(frames[n]);
      if frame.Some? {
        IntakeShape(intake, Content(frames[..n]));
        ReceiveKeepsIntake(intake, Content(frames[..n]), frame.value);
        var next := Receive(intake, frame.value);
        if next.None? {
          ConflictInPrefix(frames, n, frame.value);
          return None;
        }
        intake := next.value;
      } else {
        assert Content(frames[..n]) + {} == Content(frames[..n]);
      }
    }
    assert frames[..|frames|] == frames;
    r := Some(intake);
  }

  /** Turns the dictionaries of a complete response into blocks and decoded programs. */
  method Build(frames: seq<Frame>, intake: Intake) returns (r: Result<Snapshot>)
    requires IntakeOf(intake, Content(frames))
    requires forall i :: 0 <= i < 3 ==> ProgramComplete(Fragments(frames, i))
    ensures r.Ok? ==> IsSnapshot(r.value, frames)
    ensures r.Err? ==> r.error == InvalidSnapshot && forall s :: !IsSnapshot(s, frames)
  {
    hide IsSnapshot, IntakeOf, Content, DecodeBlock, HasBlock, ReadableBlock, ProgramComplete;
    IntakeShape(intake, Content(frames));
    var blocks: seq<seq<NFrame>> := [];
    var programs: seq<Program> := [];
    for i := 0 to 3
      invariant |blocks| == |programs| == i
      invariant forall j :: 0 <= j < i ==> HasBlock(Content(frames), j, blocks[j])
      invariant forall j :: 0 <= j < i ==> ReadableBlock(blocks[j]) && programs[j] == DecodeBlock(blocks[j])
    {
      var built := BuildSlot(frames, i, intake.groups[i]);
      if built.None? {
        return Err(InvalidSnapshot);
      }
      blocks, programs := blocks + [built.value.0], programs + [built.value.1];
    }
    r := Ok(Snapshot(frames, blocks, intake.extras, programs));
    SnapshotShape(r.value, frames);
  }

  /** One slot: check the layout of its dictionary, renumber it and assemble the program. */
  method BuildSlot(frames: seq<Frame>, i: int, group: Group) returns (r: Option<(seq<NFrame>, Program)>)
    requires 0 <= i < 3 && Groups(Content(frames), i, group) && ProgramComplete(Fragments(frames, i))
    ensures r.Some? ==> HasBlock(Content(frames), i, r.value.0) && ReadableBlock(r.value.0)
    ensures r.Some? ==> r.value.1 == DecodeBlock(r.value.0)
    ensures r.None? ==> forall s :: !IsSnapshot(s, frames)
  {
    hide IsSnapshot, Content, DecodeBlock, IsBlock, SpansSix, Contiguous, ReadableBlock, Canonical, ProgramComplete,
         Groups;
    var frags := Fragments(frames, i);
    NonEmptyWhenComplete(frags);
    var top := MaxId(frags);
    if |group| != 7 || !SpansSix(group, top) {
      BadLayoutIsNoSnapshot(frames, i, group);
      return None;
    }
    SevenAreContiguous(group, top);
    GroupTop(frames, i, group, top);
    CanonicalIsBlock(frames, i, group, top);
    FragmentsAreTheSlot(frames, i);
    var block := Canonical(group, top);
    SpelledBlock(Content(frames), i, block, top);
    var program := AssembleSlot(frags, SlotOf(Content(frames), i), block, top);
    r := Some((block, program));
  }

  lemma GroupTop(frames: seq<Frame>, i: int, g: Group, top: int)
    requires Groups(Content(frames), i, g) && SpansSix(g, top)
    ensures 6 <= top < 256
  {
  }

  lemma EmptyIntake(t: Intake)
    requires t == Intake([map[], map[], map[]], [])
    ensures IntakeOf(t, Content([]))
  {
  }

  lemma IntakeShape(t: Intake, c: set<NFrame>)
    requires IntakeOf(t, c)
    ensures |t.groups| == 3 && (forall i :: 0 <= i < 3 ==> Groups(c, i, t.groups[i]))
    ensures IsExtras(c, t.extras)
  {
  }

  lemma ConflictInPrefix(frames: seq<Frame>, n: nat, f: NFrame)
    requires n < |frames| && Normalize(frames[n]) == Some(f) && Editable(f)
    requires exists g :: g in SlotOf(Content(frames[..n]), f[3] - 0x10) && g[2] == f[2] && g != f
    ensures forall s :: !IsSnapshot(s, frames)
  {
    hide IsSnapshot;
    var g :| g in SlotOf(Content(frames[..n]), f[3] - 0x10) && g[2] == f[2] && g != f;
    ContentSplit(frames, n);
    assert f in Content(frames);
    ConflictIsNoSnapshot(frames, f[3] - 0x10, f, g);
  }

  lemma NonEmptyWhenComplete(frags: seq<NFrame>)
    requires ProgramComplete(frags)
    ensures frags != []
  {
  }

  lemma SpelledBlock(c: set<NFrame>, i: int, b: seq<NFrame>, top: int)
    requires IsBlock(c, i, b, top)
    ensures HasBlock(c, i, b) && Spells(SlotOf(c, i), b, top) && ReadableBlock(b)
  {
  }

  lemma SnapshotShape(s: Snapshot, frames: seq<Frame>)
    requires s.frames == frames && |s.blocks| == 3 && |s.programs| == 3
    requires forall i :: 0 <= i < 3 ==> HasBlock(Content(frames), i, s.blocks[i])
    requires forall i :: 0 <= i < 3 ==> ReadableBlock(s.blocks[i]) && s.programs[i] == DecodeBlock(s.blocks[i])
    requires IsExtras(Content(frames), s.extras)
    ensures IsSnapshot(s, frames)
  {
  }

  /** The sorted listing of everything outside the editable slots. */
  function SortedExtras(frames: seq<Frame>): (r: seq<NFrame>)
    ensures StrictlySorted(r)
  {
    if frames == [] then []
    else
      var f := Normalize(frames[0]);
      if f.Some? && !Editable(f.value) then InsertFrame(f.value, SortedExtras(frames[1..])) else SortedExtras(frames[1..])
  }

  lemma {:induction false} SortedExtrasIsExtras(frames: seq<Frame>)
    ensures IsExtras(Content(frames), SortedExtras(frames))
  {
    hide StrictlySorted, Normalize;
    if frames != [] {
      SortedExtrasIsExtras(frames[1..]);
      ContentSplit(frames, 1);
    }
  }
}
