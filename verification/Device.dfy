/** The controller as a store of program chunks, what a configuration read of it contains, and what a
    patched controller reads back as. */
module Device {
  import opened Bytes
  import opened Protocol
  import opened Snapshots
  import opened Patching
  import opened Editor
  import opened Replay

  /** Slots A, B and C are complete, every chunk has its standard length, and slots are 0 to 11. */
  ghost predicate StoreOk(d: Store) {
    && (forall key :: key in d ==> 0 <= key.0 < 12 && 0 <= key.1 < 7 && |d[key]| == StandardLength(key.1) - 4)
    && (forall i, k :: 0 <= i < 3 && 0 <= k < 7 ==> (i, k) in d)
  }

  /** Fragment ids count down from `tops[slot]` within each slot. */
  ghost predicate TopsOk(tops: seq<int>) {
    |tops| == 12 && forall i :: 0 <= i < 12 ==> 6 <= tops[i] < 256
  }

  /** One read response: `3a`, payload length, fragment id, program key, payload. */
  function Response(slot: int, id: int, payload: Frame): (f: NFrame)
    requires 0 <= slot < 12 && 0 <= id < 256 && |payload| < 254
    ensures f[2] == id && f[3] == 0x10 + slot && f[4..] == payload && |f| == |payload| + 4
  {
    [0x3A, |payload| + 2, id, 0x10 + slot] + payload
  }

  ghost function Fragment(d: Store, tops: seq<int>, key: Key): NFrame
    requires StoreOk(d) && TopsOk(tops) && key in d
  {
    Response(key.0, tops[key.0] - key.1, d[key])
  }

  /** A faithful read: every stored chunk, nothing else, in any order, repetition and wrapping. */
  ghost predicate Reads(d: Store, tops: seq<int>, frames: seq<Frame>)
    requires StoreOk(d) && TopsOk(tops)
  {
    && (forall key :: key in d ==> Fragment(d, tops, key) in Content(frames))
    && (forall f :: f in Content(frames) ==> exists key :: key in d && f == Fragment(d, tops, key))
  }

  ghost predicate IsHidden(d: Store, tops: seq<int>, f: NFrame)
    requires StoreOk(d) && TopsOk(tops)
  {
    exists key :: key in d && key.0 >= 3 && f == Fragment(d, tops, key)
  }

  /** Block `b` is what slot `i` of the store holds. */
  ghost predicate BlockStored(b: seq<NFrame>, d: Store, i: int) {
    && |b| == 7 && 0 <= i < 12
    && forall k :: 0 <= k < 7 ==> (i, k) in d && |d[(i, k)]| < 254 && b[k] == Response(i, k, d[(i, k)])
  }

  /** The snapshot that describes this store. */
  ghost predicate Describes(s: Snapshot, d: Store, tops: seq<int>)
    requires StoreOk(d) && TopsOk(tops)
  {
    && |s.blocks| == 3 && |s.programs| == 3
    && (forall i :: 0 <= i < 3 ==> BlockStored(s.blocks[i], d, i))
    && (forall i :: 0 <= i < 3 ==> ReadableBlock(s.blocks[i]) && s.programs[i] == DecodeBlock(s.blocks[i]))
    && StrictlySorted(s.extras) && forall f :: f in s.extras <==> IsHidden(d, tops, f)
  }

  function StoredBlock(d: Store, i: int): (b: seq<NFrame>)
    requires StoreOk(d) && 0 <= i < 3
    ensures |b| == 7 && forall k :: 0 <= k < 7 ==> b[k] == Response(i, k, d[(i, k)])
  {
    seq(7, k requires 0 <= k < 7 => Response(i, k, d[(i, k)]))
  }

  lemma StoredChunk(d: Store, i: int, k: int)
    requires StoreOk(d) && 0 <= i < 3 && 0 <= k < 7
    ensures (i, k) in d && |d[(i, k)]| == StandardLength(k) - 4
  {
  }

  lemma StoredBlockIsStored(d: Store, i: int)
    requires StoreOk(d) && 0 <= i < 3
    ensures BlockStored(StoredBlock(d, i), d, i)
  {
    forall k | 0 <= k < 7
      ensures (i, k) in d && |d[(i, k)]| < 254
    {
      StoredChunk(d, i, k);
    }
    hide StoreOk;
  }

  lemma StoredBlockIsStandard(d: Store, i: int)
    requires StoreOk(d) && 0 <= i < 3
    ensures StandardBlock(StoredBlock(d, i))
  {
  }

  lemma FragmentOfBlock(d: Store, tops: seq<int>, i: int, k: int)
    requires StoreOk(d) && TopsOk(tops) && 0 <= i < 3 && 0 <= k < 7
    ensures WithId(StoredBlock(d, i)[k], tops[i] - k) == Fragment(d, tops, (i, k))
  {
  }

  lemma ReadGivesBlock(d: Store, tops: seq<int>, frames: seq<Frame>, i: int)
    requires StoreOk(d) && TopsOk(tops) && Reads(d, tops, frames) && 0 <= i < 3
    ensures IsBlock(Content(frames), i, StoredBlock(d, i), tops[i])
  {
    hide Content, StandardBlock, MinLength, ReadableBlock, Reads, StoreOk, SlotOf, HasChunk;
    var c, b, top := Content(frames), StoredBlock(d, i), tops[i];
    StoredBlockIsStandard(d, i);
    StandardIsReadable(b);
    forall k | 0 <= k < 7
      ensures HasChunk(SlotOf(c, i), b, top, k)
    {
      ReadChunk(d, tops, frames, i, k);
    }
    forall f | f in SlotOf(c, i)
      ensures 0 <= top - f[2] < 7 && f == WithId(b[top - f[2]], f[2])
    {
      ReadSlotFragment(d, tops, frames, i, f);
    }
  }

  lemma ReadChunk(d: Store, tops: seq<int>, frames: seq<Frame>, i: int, k: int)
    requires StoreOk(d) && TopsOk(tops) && Reads(d, tops, frames) && 0 <= i < 3 && 0 <= k < 7
    ensures HasChunk(SlotOf(Content(frames), i), StoredBlock(d, i), tops[i], k)
  {
    hide Content;
    FragmentOfBlock(d, tops, i, k);
  }

  lemma ReadSlotFragment(d: Store, tops: seq<int>, frames: seq<Frame>, i: int, f: NFrame)
    requires StoreOk(d) && TopsOk(tops) && Reads(d, tops, frames) && 0 <= i < 3 && f in SlotOf(Content(frames), i)
    ensures 0 <= tops[i] - f[2] < 7 && f == WithId(StoredBlock(d, i)[tops[i] - f[2]], f[2])
  {
    hide Content, StoreOk, StoredBlock, StandardLength;
    var key :| key in d && f == Fragment(d, tops, key);
    StoredKey(d, key);
    assert key == (i, key.1);
    FragmentOfBlock(d, tops, i, key.1);
  }

  lemma StoredKey(d: Store, key: Key)
    requires StoreOk(d) && key in d
    ensures 0 <= key.0 < 12 && 0 <= key.1 < 7
  {
  }

  lemma StandardIsReadable(b: seq<Frame>)
    requires StandardBlock(b)
    ensures |b| == 7 && ReadableBlock(b)
  {
  }

  /** What a faithful read of the store parses to is the description of the store. */
  lemma ReadDescribes(d: Store, tops: seq<int>, frames: seq<Frame>, s: Snapshot)
    requires StoreOk(d) && TopsOk(tops) && Reads(d, tops, frames) && IsSnapshot(s, frames)
    ensures Describes(s, d, tops)
  {
    hide Content, DecodeBlock, IsBlock, ReadableBlock, Fragment, StoreOk, BlockStored, StoredBlock, Reads, IsHidden;
    var c := Content(frames);
    forall i | 0 <= i < 3
      ensures s.blocks[i] == StoredBlock(d, i) && BlockStored(s.blocks[i], d, i)
    {
      StoredBlockIsStored(d, i);
      ReadGivesBlock(d, tops, frames, i);
      assert HasBlock(c, i, s.blocks[i]);
      var t :| IsBlock(c, i, s.blocks[i], t);
      BlockUnique(c, i, s.blocks[i], t, StoredBlock(d, i), tops[i]);
    }
    forall f
      ensures f in s.extras <==> IsHidden(d, tops, f)
    {
      ReadExtra(d, tops, frames, f);
    }
  }

  lemma ReadExtra(d: Store, tops: seq<int>, frames: seq<Frame>, f: NFrame)
    requires StoreOk(d) && TopsOk(tops) && Reads(d, tops, frames)
    ensures f in Content(frames) && !Editable(f) <==> IsHidden(d, tops, f)
  {
  }

  /** One description per store. */
  lemma DescriptionUnique(s: Snapshot, e: Snapshot, d: Store, tops: seq<int>, tops': seq<int>)
    requires StoreOk(d) && TopsOk(tops) && TopsOk(tops') && tops[3..] == tops'[3..]
    requires Describes(s, d, tops) && Describes(e, d, tops')
    ensures s.blocks == e.blocks && s.extras == e.extras && s.programs == e.programs
  {
    hide DecodeBlock, ReadableBlock, StrictlySorted;
    forall i | 0 <= i < 3
      ensures s.blocks[i] == e.blocks[i]
    {
      assert BlockStored(s.blocks[i], d, i) && BlockStored(e.blocks[i], d, i);
      assert s.blocks[i] == StoredBlock(d, i) == e.blocks[i];
    }
    forall f
      ensures IsHidden(d, tops, f) <==> IsHidden(d, tops', f)
    {
      HiddenTops(d, tops, tops', f);
      HiddenTops(d, tops', tops, f);
    }
    SortedUnique(s.extras, e.extras);
  }

  lemma HiddenTops(d: Store, tops: seq<int>, tops': seq<int>, f: NFrame)
    requires StoreOk(d) && TopsOk(tops) && TopsOk(tops') && tops[3..] == tops'[3..]
    ensures IsHidden(d, tops, f) ==> IsHidden(d, tops', f)
  {
  }

  /** Sending an accepted patch moves the described store to the described expectation, and touches
      no other slot. */
  lemma PatchMovesStore(s: Snapshot, d: Store, tops: seq<int>, i: int, cs: seq<Change>, n: int, ws: seq<Frame>,
                        e: Snapshot)
    requires StoreOk(d) && TopsOk(tops) && Describes(s, d, tops) && PatchYields(s, i, cs, n, ws, e)
    ensures var d' := ApplyWrites(d, ws);
            && StoreOk(d') && d'.Keys == d.Keys && Describes(e, d', tops)
            && forall key :: key in d && key.0 != i ==> d'[key] == d[key]
  {
    hide Content, DecodeBlock, KnownExtras, BlockWrites, StandardBlock, ReadableBlock, StrictlySorted, IsSnapshot,
         PatchYields;
    if ws != [] {
      var b := PatchedBlockKeyed(s, i, cs, n, ws, e);
      assert BlockWrites(b)[..7] == BlockWrites(b);
      BlockWritesApplied(d, b, i, 7);
      BlockStoreKeys(b, i, 7);
      BlockMovesStore(s, d, tops, i, b, e);
    } else {
      UnchangedYields(s, i, cs, n, ws, e);
    }
  }

  lemma PatchedBlockKeyed(s: Snapshot, i: int, cs: seq<Change>, n: int, ws: seq<Frame>,
                          e: Snapshot) returns (b: seq<NFrame>)
    requires PatchYields(s, i, cs, n, ws, e) && ws != []
    ensures 0 <= i < 3 && Keyed(b, i) && ws == BlockWrites(b) && |s.blocks| == 3 && SameHeads(s.blocks[i], b)
    ensures e.blocks == s.blocks[i := b] && e.extras == s.extras && |e.programs| == 3
    ensures forall j :: 0 <= j < 3 ==> ReadableBlock(e.blocks[j]) && e.programs[j] == DecodeBlock(e.blocks[j])
  {
    hide Content, DecodeBlock, KnownExtras, BlockWrites, ReadableBlock, HasBlock, IsExtras;
    b := PatchedBlock(s.blocks[i], cs);
    SnapshotBlockKeyed(e, i);
    PatchedHeads(s.blocks[i], cs);
  }

  lemma UnchangedYields(s: Snapshot, i: int, cs: seq<Change>, n: int, ws: seq<Frame>, e: Snapshot)
    requires PatchYields(s, i, cs, n, ws, e) && ws == []
    ensures 0 <= i < 3 && e == s
  {
  }

  lemma BlockMovesStore(s: Snapshot, d: Store, tops: seq<int>, i: int, b: seq<NFrame>, e: Snapshot)
    requires StoreOk(d) && TopsOk(tops) && Describes(s, d, tops) && 0 <= i < 3
    requires Keyed(b, i) && SameHeads(s.blocks[i], b)
    requires e.blocks == s.blocks[i := b] && e.extras == s.extras && |e.programs| == 3
    requires forall j :: 0 <= j < 3 ==> ReadableBlock(e.blocks[j]) && e.programs[j] == DecodeBlock(e.blocks[j])
    ensures var d' := d + BlockStore(b, i, 7); StoreOk(d') && d'.Keys == d.Keys && Describes(e, d', tops)
  {
    KeyedLength(b, i);
    hide DecodeBlock, ReadableBlock, StrictlySorted, IsHidden, Keyed, SameHeads, BlockStore, StoreOk, BlockStored,
         StandardBlock;
    var d' := d + BlockStore(b, i, 7);
    StoreGrows(d, b, i);
    SlotReplaced(d, s.blocks[i], b, i);
    forall j | 0 <= j < 3
      ensures BlockStored(e.blocks[j], d', j)
    {
      if j != i { SlotKept(d, d', s.blocks[j], j); }
    }
    HiddenSame(d, d', tops);
  }

  lemma HiddenSame(d: Store, d': Store, tops: seq<int>)
    requires StoreOk(d) && StoreOk(d') && TopsOk(tops) && d.Keys == d'.Keys
    requires forall key :: key in d && key.0 >= 3 ==> d[key] == d'[key]
    ensures forall f :: IsHidden(d, tops, f) <==> IsHidden(d', tops, f)
  {
    hide IsHidden, StoreOk;
    forall f
      ensures IsHidden(d, tops, f) <==> IsHidden(d', tops, f)
    {
      HiddenUnchanged(d, d', tops, f);
      HiddenUnchanged(d', d, tops, f);
    }
  }

  /** Storing block `b` in slot `i` keeps the shape of the store and every other slot. */
  lemma StoreGrows(d: Store, b: seq<NFrame>, i: int)
    requires StoreOk(d) && 0 <= i < 3 && Keyed(b, i)
    ensures var d' := d + BlockStore(b, i, 7);
            StoreOk(d') && d'.Keys == d.Keys && forall key :: key in d && key.0 != i ==> d'[key] == d[key]
  {
    hide BlockStore;
    BlockStoreKeys(b, i, 7);
    assert (d + BlockStore(b, i, 7)).Keys == d.Keys;
  }

  lemma SlotReplaced(d: Store, was: seq<NFrame>, b: seq<NFrame>, i: int)
    requires StoreOk(d) && 0 <= i < 3 && Keyed(b, i) && BlockStored(was, d, i) && SameHeads(was, b)
    ensures BlockStored(b, d + BlockStore(b, i, 7), i)
  {
    hide BlockStore, Response;
    BlockStoreKeys(b, i, 7);
    forall k | 0 <= k < 7
      ensures b[k] == Response(i, k, b[k][4..])
    {
      SameResponse(i, k, d[(i, k)], b[k]);
    }
  }

  lemma SlotKept(d: Store, d': Store, b: seq<NFrame>, j: int)
    requires BlockStored(b, d, j) && d'.Keys == d.Keys && forall key :: key in d && key.0 == j ==> d'[key] == d[key]
    ensures BlockStored(b, d', j)
  {
  }

  lemma SameResponse(slot: int, id: int, payload: Frame, g: NFrame)
    requires 0 <= slot < 12 && 0 <= id < 256 && |payload| < 254
    requires var f := Response(slot, id, payload); |g| == |f| && g[..4] == f[..4]
    ensures g == Response(slot, id, g[4..])
  {
  }

  lemma HiddenUnchanged(d: Store, d': Store, tops: seq<int>, f: NFrame)
    requires StoreOk(d) && StoreOk(d') && TopsOk(tops) && d.Keys == d'.Keys
    requires forall key :: key in d && key.0 >= 3 ==> d[key] == d'[key]
    ensures IsHidden(d, tops, f) ==> IsHidden(d', tops, f)
  {
  }

  /** A faithful read always parses. */
  lemma ReadParses(d: Store, tops: seq<int>, frames: seq<Frame>)
    requires StoreOk(d) && TopsOk(tops) && Reads(d, tops, frames)
    ensures exists s :: IsSnapshot(s, frames)
  {
    hide Content, DecodeBlock, IsBlock, StandardBlock, ReadableBlock, Reads, StrictlySorted, IsSnapshot, StoreOk,
         StoredBlock, IsExtras;
    forall i | 0 <= i < 3
      ensures HasBlock(Content(frames), i, StoredBlock(d, i)) && ReadableBlock(StoredBlock(d, i))
    {
      ReadGivesBlock(d, tops, frames, i);
      StoredBlockIsStandard(d, i);
      StandardIsReadable(StoredBlock(d, i));
    }
    SortedExtrasIsExtras(frames);
    var a, b, c := StoredBlock(d, 0), StoredBlock(d, 1), StoredBlock(d, 2);
    var s := Snapshot(frames, [a, b, c], SortedExtras(frames), [DecodeBlock(a), DecodeBlock(b), DecodeBlock(c)]);
    SnapshotShape(s, frames);
  }
}
