/** Which additional program slots the editor knows, said without grouping and sorting. */
module HiddenSlots {
  import opened Bytes
  import opened Protocol
  import opened Snapshots
  import opened Editor

  /** The frame is chunk `k` of the hidden slot, of the standard length, in a numbering down from `top`. */
  predicate HiddenChunk(f: NFrame, slot: int, top: int, k: int) {
    f[3] as int == 0x10 + slot && f[2] as int == top - k && 0 <= k < 7 && |f| == StandardLength(k)
  }

  ghost predicate HasHiddenChunk(extras: seq<NFrame>, slot: int, top: int, k: int) {
    exists f :: f in extras && HiddenChunk(f, slot, top, k)
  }

  /** The slot is complete: seven chunks numbered down from `top`, no other frame, and no number twice. */
  ghost predicate CompleteFrom(extras: seq<NFrame>, slot: int, top: int) {
    && (forall k :: 0 <= k < 7 ==> HasHiddenChunk(extras, slot, top, k))
    && (forall f :: f in extras && f[3] as int == 0x10 + slot ==> HiddenChunk(f, slot, top, top - f[2]))
    && forall f, g :: f in extras && g in extras && f[3] == g[3] == 0x10 + slot && f[2] == g[2] ==> f == g
  }

  ghost predicate CompleteSlot(extras: seq<NFrame>, slot: int) {
    exists top :: CompleteFrom(extras, slot, top)
  }

  predicate NoRepetition(s: seq<NFrame>) {
    forall i, j :: 0 <= i < j < |s| ==> s[i] != s[j]
  }

  lemma SortedNoRepetition(s: seq<NFrame>)
    requires StrictlySorted(s)
    ensures NoRepetition(s)
  {
    forall i, j | 0 <= i < j < |s|
      ensures s[i] != s[j]
    {
      LessTotal(s[i], s[j]);
    }
  }

  lemma {:induction false} GroupNoRepetition(extras: seq<NFrame>, slot: int)
    requires NoRepetition(extras)
    ensures NoRepetition(HiddenGroup(extras, slot))
  {
    if extras != [] {
      var rest := HiddenGroup(extras[1..], slot);
      assert NoRepetition(extras[1..]);
      GroupNoRepetition(extras[1..], slot);
      assert extras[0] !in extras[1..];
      assert extras[0] !in rest;
    }
  }

  function Elements(s: seq<NFrame>): set<NFrame> {
    set f | f in s
  }

  lemma {:induction false} AtMostLength(s: seq<NFrame>)
    ensures |Elements(s)| <= |s|
    ensures |Elements(s)| == |s| <==> NoRepetition(s)
  {
    if s != [] {
      var rest := s[1..];
      AtMostLength(rest);
      assert Elements(s) == Elements(rest) + {s[0]};
      assert forall k :: 1 <= k < |s| ==> s[k] == rest[k - 1];
      if s[0] in rest {
        assert Elements(s) == Elements(rest);
        var j :| 0 <= j < |rest| && rest[j] == s[0];
        assert s[j + 1] == s[0];
      } else {
        assert NoRepetition(s) <==> NoRepetition(rest);
      }
    }
  }

  /** Sorting by id repeats nothing that was not repeated. */
  lemma SortedOnce(s: seq<NFrame>)
    requires NoRepetition(s)
    ensures NoRepetition(SortById(s))
  {
    AtMostLength(s);
    AtMostLength(SortById(s));
    assert Elements(s) == Elements(SortById(s));
  }

  /** The group is one of seven consecutive chunks exactly when the slot is complete. */
  lemma GroupIsComplete(extras: seq<NFrame>, slot: int)
    requires StrictlySorted(extras)
    ensures KnownGroup(SortById(HiddenGroup(extras, slot))) <==> CompleteSlot(extras, slot)
  {
    hide SortById, HiddenGroup, StrictlySorted, KnownGroup;
    var ordered := SortById(HiddenGroup(extras, slot));
    if KnownGroup(ordered) {
      KnownIsComplete(extras, slot, ordered);
    }
    if top :| CompleteFrom(extras, slot, top) {
      SortedNoRepetition(extras);
      GroupNoRepetition(extras, slot);
      SortedOnce(HiddenGroup(extras, slot));
      CompleteIsKnown(extras, slot, top, ordered);
    }
  }

  lemma KnownIsComplete(extras: seq<NFrame>, slot: int, ordered: seq<NFrame>)
    requires KnownGroup(ordered) && forall f :: f in ordered <==> f in extras && f[3] == 0x10 + slot
    ensures CompleteSlot(extras, slot)
  {
    var top := ordered[0][2] as int;
    forall k | 0 <= k < 7
      ensures HasHiddenChunk(extras, slot, top, k)
    {
      assert ordered[k] in extras && HiddenChunk(ordered[k], slot, top, k);
    }
    assert CompleteFrom(extras, slot, top);
  }

  lemma CompleteIsKnown(extras: seq<NFrame>, slot: int, top: int, ordered: seq<NFrame>)
    requires CompleteFrom(extras, slot, top) && NoRepetition(ordered)
    requires forall f :: f in ordered <==> f in extras && f[3] == 0x10 + slot
    requires forall i, j :: 0 <= i < j < |ordered| ==> ordered[i][2] >= ordered[j][2]
    ensures KnownGroup(ordered)
  {
    forall i, j | 0 <= i < j < |ordered|
      ensures ordered[i][2] > ordered[j][2]
    {
      assert ordered[i] in ordered && ordered[j] in ordered;
    }
    Descending(extras, slot, top, ordered, 7);
    assert forall f :: f in ordered ==> f[2] as int >= top - 6;
    if |ordered| > 7 { EighthBelow(ordered, top); }
    forall k | 0 <= k < 7
      ensures ordered[k][2] as int == top - k && |ordered[k]| == StandardLength(k)
    {
      Descending(extras, slot, top, ordered, k + 1);
      assert ordered[k] in ordered;
    }
  }

  lemma EighthBelow(ordered: seq<NFrame>, top: int)
    requires |ordered| > 7 && ordered[6][2] as int == top - 6
    requires forall i, j :: 0 <= i < j < |ordered| ==> ordered[i][2] > ordered[j][2]
    ensures exists f :: f in ordered && f[2] as int < top - 6
  {
    assert ordered[7] in ordered;
  }

  /** The first `n` places hold the first `n` chunks. */
  lemma {:induction false} Descending(extras: seq<NFrame>, slot: int, top: int, ordered: seq<NFrame>, n: nat)
    requires CompleteFrom(extras, slot, top) && n <= 7
    requires forall f :: f in ordered <==> f in extras && f[3] == 0x10 + slot
    requires forall i, j :: 0 <= i < j < |ordered| ==> ordered[i][2] > ordered[j][2]
    ensures |ordered| >= n && forall k :: 0 <= k < n ==> ordered[k][2] as int == top - k
  {
    if n > 0 {
      Descending(extras, slot, top, ordered, n - 1);
      assert HasHiddenChunk(extras, slot, top, n - 1);
      var f :| f in extras && HiddenChunk(f, slot, top, n - 1);
      assert f in ordered;
      var j :| 0 <= j < |ordered| && ordered[j] == f;
      assert j >= n - 1;
      var g := ordered[n - 1];
      assert g in ordered && HiddenChunk(g, slot, top, top - g[2]);
      assert top - (n - 1) <= g[2] <= top;
      if n > 1 { assert ordered[n - 2][2] as int == top - (n - 2); }
    }
  }

  /** The editor knows the additional slots exactly when there are none at all, or when all nine are there, each complete,
      and no other. */
  lemma KnownMeans(extras: seq<NFrame>)
    requires StrictlySorted(extras)
    ensures KnownExtras(extras) <==>
              || (forall f :: f in extras ==> !(0x10 <= f[3] <= 0x1F))
              || ((forall f :: f in extras && 0x10 <= f[3] <= 0x1F ==> 0x13 <= f[3] <= 0x1B)
                  && forall slot :: 3 <= slot < 12 ==> CompleteSlot(extras, slot))
  {
    hide SortById, HiddenGroup, KnownGroup, StrictlySorted, CompleteSlot;
    forall slot | 3 <= slot < 12
      ensures KnownGroup(SortById(HiddenGroup(extras, slot))) <==> CompleteSlot(extras, slot)
    {
      GroupIsComplete(extras, slot);
    }
  }
}
