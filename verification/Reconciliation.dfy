/** What reconciling a pending restore can conclude about the controller itself. */
module Reconciliation {
  import opened Options
  import opened Bytes
  import opened Protocol
  import opened Snapshots
  import opened Replay
  import opened Patching
  import opened PatchMeaning
  import opened Device
  import opened Restore
  import opened DateDrift
  import opened ProgramBackup

  /** Two payloads of a program header that differ at most in the day of the stored date. */
  predicate SameButDay(a: Frame, b: Frame) {
    |a| == 12 && |b| == 12 && a[..8] == b[..8] && a[9..] == b[9..]
  }

  /** The same chunks, payload by payload, except for the day byte of A/B/C headers. */
  ghost predicate UpToDays(a: Store, b: Store) {
    && a.Keys == b.Keys
    && forall key :: key in a ==> a[key] == b[key] || (key.0 < 3 && key.1 == 2 && SameButDay(a[key], b[key]))
  }

  lemma DescribedLengths(s: Snapshot, d: Store, tops: seq<int>)
    requires StoreOk(d) && TopsOk(tops) && Describes(s, d, tops)
    ensures Digestible(s) && NoOddFrames(s)
  {
  }

  lemma SameExtrasSameHidden(s: Snapshot, d: Store, tops: seq<int>, e: Snapshot, d': Store, tops': seq<int>, key: Key)
    requires StoreOk(d) && TopsOk(tops) && Describes(s, d, tops)
    requires StoreOk(d') && TopsOk(tops') && Describes(e, d', tops')
    requires tops[3..] == tops'[3..] && s.extras == e.extras && key.0 >= 3 && key in d
    ensures key in d' && d'[key] == d[key]
  {
    hide DecodeBlock, ReadableBlock, StrictlySorted, StandardLength;
    var f := Fragment(d, tops, key);
    assert IsHidden(d, tops, f);
    assert f in s.extras;
    var k' :| k' in d' && k'.0 >= 3 && f == Fragment(d', tops', k');
    SameFragmentSameKey(d, tops, key, d', tops', k');
  }

  lemma SameFragmentSameKey(d: Store, tops: seq<int>, key: Key, d': Store, tops': seq<int>, k': Key)
    requires StoreOk(d) && TopsOk(tops) && StoreOk(d') && TopsOk(tops') && tops[3..] == tops'[3..]
    requires key in d && k' in d' && key.0 >= 3 && k'.0 >= 3
    requires Fragment(d, tops, key) == Fragment(d', tops', k')
    ensures k' == key && d'[k'] == d[key]
  {
  }

  lemma SlotPayload(s: Snapshot, d: Store, tops: seq<int>, i: int, k: int)
    requires StoreOk(d) && TopsOk(tops) && Describes(s, d, tops) && 0 <= i < 3 && 0 <= k < 7
    ensures |s.blocks| == 3 && |s.blocks[i]| == 7 && (i, k) in d && s.blocks[i][k][4..] == d[(i, k)]
  {
  }

  /** A snapshot determines the store it describes. */
  lemma DescribedStoreUnique(s: Snapshot, d: Store, tops: seq<int>, e: Snapshot, d': Store, tops': seq<int>)
    requires StoreOk(d) && TopsOk(tops) && Describes(s, d, tops)
    requires StoreOk(d') && TopsOk(tops') && Describes(e, d', tops')
    requires tops[3..] == tops'[3..] && s.blocks == e.blocks && s.extras == e.extras
    ensures d == d'
  {
    forall key
      ensures key in d <==> key in d'
      ensures key in d && key in d' ==> d[key] == d'[key]
    {
      SamePayload(s, d, tops, e, d', tops', key);
      SamePayload(e, d', tops', s, d, tops, key);
    }
  }

  lemma SamePayload(s: Snapshot, d: Store, tops: seq<int>, e: Snapshot, d': Store, tops': seq<int>, key: Key)
    requires StoreOk(d) && TopsOk(tops) && Describes(s, d, tops)
    requires StoreOk(d') && TopsOk(tops') && Describes(e, d', tops')
    requires tops[3..] == tops'[3..] && s.blocks == e.blocks && s.extras == e.extras
    ensures key in d ==> key in d' && d[key] == d'[key]
  {
    hide Describes;
    if key in d {
      assert key == (key.0, key.1);
      if key.0 < 3 {
        SlotPayload(s, d, tops, key.0, key.1);
        SlotPayload(e, d', tops', key.0, key.1);
      } else {
        SameExtrasSameHidden(s, d, tops, e, d', tops', key);
      }
    }
  }

  lemma DriftedPayload(b: NFrame, b': NFrame)
    requires DayByteOnly(b, b')
    ensures SameButDay(b[4..], b'[4..])
  {
  }

  lemma DriftedStore(s: Snapshot, d: Store, tops: seq<int>, e: Snapshot, d': Store, tops': seq<int>)
    requires StoreOk(d) && TopsOk(tops) && Describes(s, d, tops)
    requires StoreOk(d') && TopsOk(tops') && Describes(e, d', tops')
    requires tops[3..] == tops'[3..] && s.extras == e.extras && |s.blocks| == 3 && |e.blocks| == 3
    requires forall i :: 0 <= i < 3 ==> DriftedBlock(s.blocks[i], e.blocks[i])
    ensures UpToDays(d, d')
  {
    hide Describes, SameButDay, StoreOk;
    forall key
      ensures key in d ==> key in d' && (d[key] == d'[key] || (key.0 < 3 && key.1 == 2 && SameButDay(d[key], d'[key])))
      ensures key in d' ==> key in d
    {
      if key in d { StoreKey(d, key); DriftedAt(s, d, tops, e, d', tops', key); }
      if key in d' { StoreKey(d', key); DriftedBack(s, d, tops, e, d', tops', key); }
    }
  }

  lemma StoreKey(d: Store, key: Key)
    requires StoreOk(d) && key in d
    ensures 0 <= key.0 < 12 && 0 <= key.1 < 7
  {
  }

  lemma DriftedAt(s: Snapshot, d: Store, tops: seq<int>, e: Snapshot, d': Store, tops': seq<int>, key: Key)
    requires StoreOk(d) && TopsOk(tops) && Describes(s, d, tops)
    requires StoreOk(d') && TopsOk(tops') && Describes(e, d', tops')
    requires tops[3..] == tops'[3..] && s.extras == e.extras && key in d && 0 <= key.0 < 12 && 0 <= key.1 < 7
    requires |s.blocks| == 3 && |e.blocks| == 3 && forall i :: 0 <= i < 3 ==> DriftedBlock(s.blocks[i], e.blocks[i])
    ensures key in d' && (d[key] == d'[key] || (key.0 < 3 && key.1 == 2 && SameButDay(d[key], d'[key])))
  {
    hide Describes, SameButDay, StoreOk, DayByteOnly;
    if key.0 < 3 {
      var i, k := key.0, key.1;
      assert key == (i, k);
      SlotPayload(s, d, tops, i, k);
      SlotPayload(e, d', tops', i, k);
      assert DriftedBlock(s.blocks[i], e.blocks[i]);
      if s.blocks[i][k] != e.blocks[i][k] { DriftedPayload(s.blocks[i][k], e.blocks[i][k]); }
    } else {
      SameExtrasSameHidden(s, d, tops, e, d', tops', key);
    }
  }

  lemma DriftedBack(s: Snapshot, d: Store, tops: seq<int>, e: Snapshot, d': Store, tops': seq<int>, key: Key)
    requires StoreOk(d) && TopsOk(tops) && Describes(s, d, tops)
    requires StoreOk(d') && TopsOk(tops') && Describes(e, d', tops')
    requires tops[3..] == tops'[3..] && s.extras == e.extras && key in d' && 0 <= key.0 < 12 && 0 <= key.1 < 7
    ensures key in d
  {
    hide Describes;
    assert key == (key.0, key.1);
    if key.0 >= 3 { SameExtrasSameHidden(e, d', tops', s, d, tops, key); }
  }

  /** No decoded field but the controller's own date differs. */
  ghost predicate SameButDates(s: Snapshot, e: Snapshot) {
    && |s.programs| == |e.programs| == 3
    && forall i :: 0 <= i < 3 ==> s.programs[i] == e.programs[i].(controllerDate := s.programs[i].controllerDate)
  }

  /** Reconciliation never mistakes a half-applied restore for a finished one. The journal records the read
      of a controller holding `d` and the expectation of one holding `done`; now it holds `now`, whatever
      happened in between, and was read as `s`. The verdict is `Unchanged` exactly when it holds `d` (and
      that is not also the target), and `Confirmed` only when it holds the target up to day bytes, in which
      case no decoded field but the controller's date differs from the target. */
  lemma ReconcileIsSound(d: Store, done: Store, now: Store, tops: seq<int>, tops': seq<int>,
                         before: Snapshot, expected: Snapshot, s: Snapshot)
    requires StoreOk(d) && StoreOk(done) && StoreOk(now) && TopsOk(tops) && TopsOk(tops') && tops'[3..] == tops[3..]
    requires Describes(before, d, tops) && Describes(expected, done, tops) && IsSnapshot(expected, expected.frames)
    requires Reads(now, tops', s.frames) && IsSnapshot(s, s.frames)
    ensures Digestible(before) && Digestible(expected) && Digestible(s)
    ensures var v := VerdictOf(s, JournalOf(before, expected));
            && (v.Unchanged? <==> now == d && d != done)
            && (v.Confirmed? ==> UpToDays(now, done) && SameButDates(s, expected))
            && (now == done ==> v.Confirmed?)
  {
    hide Describes, IsSnapshot, Digestible, Reads, StoreOk, UpToDays, DiffersOnlyByPeriodStartDate, NoOddFrames;
    ReadDescribes(now, tops', s.frames, s);
    DescribedLengths(before, d, tops);
    DescribedLengths(expected, done, tops);
    DescribedLengths(s, now, tops');
    RevisionOfStore(s, now, tops', expected, done, tops);
    RevisionOfStore(s, now, tops', before, d, tops);
    SameStoreUpToDays(done);
    if now == done {
      SamePrograms(s, now, tops', expected, tops);
    } else if Drifted(s, JournalOf(before, expected)) {
      DriftIsSound(s, now, tops', expected, done, tops);
    }
  }

  /** At one position of the two responses stands the unwrapped header of slot A, B or C, as the two stores hold it. */
  ghost predicate HeaderOf(now: Store, done: Store, a: Frame, b: Frame, i: int) {
    && 0 <= i < 3 && (i, 2) in now && (i, 2) in done
    && |a| == |b| == 16 && a[..4] == b[..4] && a[3] as int == 0x10 + i && a[4..] == now[(i, 2)] && b[4..] == done[(i, 2)]
  }

  /** Position by position, the read of `now` lists what the expectation lists of `done`. */
  ghost predicate ListedAlike(now: Store, s: seq<Frame>, done: Store, e: seq<Frame>) {
    |s| == |e| && forall k :: 0 <= k < |s| ==> s[k] == e[k] || exists i :: HeaderOf(now, done, s[k], e[k], i)
  }

  lemma HeaderDrifts(now: Store, done: Store, a: Frame, b: Frame, i: int)
    requires UpToDays(now, done) && HeaderOf(now, done, a, b, i)
    ensures DayByteOnly(a, b)
  {
    var x, y := now[(i, 2)], done[(i, 2)];
    assert x == y || SameButDay(x, y);
    assert a == a[..4] + x && b == b[..4] + y;
    assert forall o :: 0 <= o < 12 && o != 8 ==> x[o] == y[o] by {
      if x != y {
        assert forall o :: 0 <= o < 8 ==> x[o] == x[..8][o] && y[o] == y[..8][o];
        assert forall o :: 9 <= o < 12 ==> x[o] == x[9..][o - 9] && y[o] == y[9..][o - 9];
      }
    }
    assert forall o :: 0 <= o < 16 && o != 12 ==> a[o] == b[o];
  }

  /** And reconciliation never overlooks a finished restore: when the controller differs from the target in nothing but
      days of A/B/C headers, and the read lists what the expectation lists, only the recorded old state is not confirmed. */
  lemma ReconcileIsComplete(d: Store, done: Store, now: Store, tops: seq<int>, tops': seq<int>,
                            before: Snapshot, expected: Snapshot, s: Snapshot)
    requires StoreOk(d) && StoreOk(done) && StoreOk(now) && TopsOk(tops) && TopsOk(tops') && tops'[3..] == tops[3..]
    requires Describes(before, d, tops) && Describes(expected, done, tops) && IsSnapshot(expected, expected.frames)
    requires Reads(now, tops', s.frames) && IsSnapshot(s, s.frames)
    requires UpToDays(now, done) && ListedAlike(now, s.frames, done, expected.frames)
    ensures Digestible(before) && Digestible(expected) && Digestible(s)
    ensures VerdictOf(s, JournalOf(before, expected)).Confirmed? <==> now != d || now == done
  {
    hide Describes, IsSnapshot, Digestible, Reads, StoreOk, UpToDays, DayByteOnly, HeaderOf;
    ReconcileIsSound(d, done, now, tops, tops', before, expected, s);
    ReadDescribes(now, tops', s.frames, s);
    RevisionOfStore(s, now, tops', expected, done, tops);
    RevisionOfStore(s, now, tops', before, d, tops);
    if now != done && now != d {
      forall k | 0 <= k < |s.frames| && s.frames[k] != expected.frames[k]
        ensures DayByteOnly(s.frames[k], expected.frames[k])
      {
        var i :| HeaderOf(now, done, s.frames[k], expected.frames[k], i);
        HeaderDrifts(now, done, s.frames[k], expected.frames[k], i);
      }
      if s.frames == expected.frames {
        SnapshotDependsOnContent(s, s.frames, expected, expected.frames);
        RevisionIdentified(s, expected);
      }
      assert DiffersOnlyByPeriodStartDate(s, expected);
    }
  }

  /** Nothing else is confirmed: if every frame of the read is a fragment, it lists what the expectation lists. */
  lemma ConfirmedIsListed(d: Store, done: Store, now: Store, tops: seq<int>, tops': seq<int>,
                          before: Snapshot, expected: Snapshot, s: Snapshot)
    requires StoreOk(d) && StoreOk(done) && StoreOk(now) && TopsOk(tops) && TopsOk(tops') && tops'[3..] == tops[3..]
    requires Describes(before, d, tops) && Describes(expected, done, tops) && IsSnapshot(expected, expected.frames)
    requires Reads(now, tops', s.frames) && IsSnapshot(s, s.frames) && now != done
    requires forall k :: 0 <= k < |s.frames| ==> Normalize(s.frames[k]).Some?
    ensures Digestible(before) && Digestible(expected) && Digestible(s)
    ensures VerdictOf(s, JournalOf(before, expected)).Confirmed? ==>
              UpToDays(now, done) && ListedAlike(now, s.frames, done, expected.frames)
  {
    hide Describes, IsSnapshot, Digestible, Reads, StoreOk, UpToDays, DayByteOnly, HeaderOf, Normalize;
    ReconcileIsSound(d, done, now, tops, tops', before, expected, s);
    ReadDescribes(now, tops', s.frames, s);
    RevisionOfStore(s, now, tops', expected, done, tops);
    if VerdictOf(s, JournalOf(before, expected)).Confirmed? {
      var e :| IsSnapshot(e, expected.frames) && DiffersOnlyByPeriodStartDate(s, e);
      SameFrames(e, expected.frames);
      forall k | 0 <= k < |s.frames| && s.frames[k] != expected.frames[k]
        ensures exists i :: HeaderOf(now, done, s.frames[k], expected.frames[k], i)
      {
        DifferenceIsHeader(done, now, tops, tops', expected, s, k);
      }
    }
  }

  lemma DifferenceIsHeader(done: Store, now: Store, tops: seq<int>, tops': seq<int>, e: Snapshot, s: Snapshot, k: int)
    requires StoreOk(done) && StoreOk(now) && TopsOk(tops) && TopsOk(tops')
    requires Describes(e, done, tops) && IsSnapshot(e, e.frames) && Reads(now, tops', s.frames)
    requires 0 <= k < |s.frames| && |s.frames| == |e.frames| && Normalize(s.frames[k]).Some?
    requires s.frames[k] != e.frames[k] && DayByteOnly(s.frames[k], e.frames[k])
    ensures HeaderOf(now, done, s.frames[k], e.frames[k], s.frames[k][3] as int - 0x10)
  {
    hide Describes, IsSnapshot, StoreOk, Content, Normalize, DayByteOnly, Editable, ShiftedByte;
    var a, b := s.frames[k], e.frames[k];
    DriftedFragment(a, b);
    ContentMember(s.frames, a);
    ContentMember(e.frames, b);
    var f, g := Normalize(a).value, Normalize(b).value;
    var key :| key in now && f == Fragment(now, tops', key);
    ReadHeader(now, tops', key, a, b);
    var i := key.0;
    ExpectedHeader(e, done, tops, g, i);
  }

  /** The fragment that differs is a header, sent as it is. */
  lemma ReadHeader(now: Store, tops: seq<int>, key: Key, a: Frame, b: Frame)
    requires StoreOk(now) && TopsOk(tops) && key in now && DayByteOnly(a, b) && a != b
    requires Normalize(a) == Some(Fragment(now, tops, key)) && Normalize(b).Some?
    ensures key == (a[3] as int - 0x10, 2) && 0 <= key.0 < 3 && a[4..] == now[key]
    ensures Normalize(b).value == b && a[..4] == b[..4] && |b| == |a| == 16 && b[0] == 0x3A
  {
    hide Normalize, DayByteOnly, StandardLength;
    DriftedFragment(a, b);
    FragmentLength(now, tops, key);
    Unwrapped(a, b, Fragment(now, tops, key));
  }

  lemma FragmentLength(now: Store, tops: seq<int>, key: Key)
    requires StoreOk(now) && TopsOk(tops) && key in now
    ensures |Fragment(now, tops, key)| == StandardLength(key.1) && |Fragment(now, tops, key)| != 15
    ensures 0 <= key.1 < 7 && (StandardLength(key.1) == 16 <==> key.1 == 2)
  {
  }

  lemma Unwrapped(a: Frame, b: Frame, f: NFrame)
    requires DayByteOnly(a, b) && Normalize(a) == Some(f) && f[0] == 0x3A && !Wrapped(b)
    ensures a == f && a[..4] == b[..4] && |a| == |b| == 16 && 0x10 <= a[3] < 0x13 && b[0] == 0x3A
    ensures Normalize(b) == Some(b)
  {
    assert a[0] == a[..4][0] && b[0] == b[..4][0];
  }

  lemma TopOf(c: set<NFrame>, i: int, b: seq<NFrame>) returns (t: int)
    requires HasBlock(c, i, b)
    ensures IsBlock(c, i, b, t)
  {
    t :| IsBlock(c, i, b, t);
  }

  lemma ExpectedHeader(e: Snapshot, done: Store, tops: seq<int>, g: NFrame, i: int)
    requires StoreOk(done) && TopsOk(tops) && Describes(e, done, tops) && IsSnapshot(e, e.frames)
    requires g in Content(e.frames) && 0 <= i < 3 && g[3] == 0x10 + i && |g| == 16
    ensures (i, 2) in done && g[4..] == done[(i, 2)]
  {
    hide Content, IsBlock, StoreOk, DecodeBlock, StandardLength;
    var c, b := Content(e.frames), e.blocks[i];
    var t := TopOf(c, i, b);
    SlotFragment(c, i, b, t, g);
    assert BlockStored(b, done, i);
    ChunkLength(done, i, t - g[2]);
  }

  lemma ChunkLength(d: Store, i: int, k: int)
    requires StoreOk(d) && 0 <= i < 3 && 0 <= k < 7
    ensures (i, k) in d && |d[(i, k)]| == StandardLength(k) - 4 && (StandardLength(k) == 16 <==> k == 2)
  {
  }

  lemma RevisionIdentified(s: Snapshot, e: Snapshot)
    requires Digestible(s) && Digestible(e) && s.blocks == e.blocks && s.extras == e.extras
    ensures Revision(s) == Revision(e)
  {
    RevisionIdentifies(s, e);
  }

  /** Between described stores, equal revisions mean equal stores. */
  lemma RevisionOfStore(s: Snapshot, d: Store, tops: seq<int>, e: Snapshot, d': Store, tops': seq<int>)
    requires StoreOk(d) && TopsOk(tops) && Describes(s, d, tops)
    requires StoreOk(d') && TopsOk(tops') && Describes(e, d', tops')
    requires tops[3..] == tops'[3..]
    ensures Digestible(s) && Digestible(e) && (Revision(s) == Revision(e) <==> d == d')
  {
    hide Describes, Digestible, StoreOk, NoOddFrames;
    DescribedLengths(s, d, tops);
    DescribedLengths(e, d', tops');
    RevisionIdentifies(s, e);
    if d == d' {
      DescriptionUnique(s, e, d, tops, tops');
    }
    if s.blocks == e.blocks && s.extras == e.extras {
      DescribedStoreUnique(s, d, tops, e, d', tops');
    }
  }

  lemma SameStoreUpToDays(d: Store)
    ensures UpToDays(d, d)
  {
  }

  lemma SamePrograms(s: Snapshot, d: Store, tops: seq<int>, e: Snapshot, tops': seq<int>)
    requires StoreOk(d) && TopsOk(tops) && TopsOk(tops') && tops[3..] == tops'[3..]
    requires Describes(s, d, tops) && Describes(e, d, tops')
    ensures SameButDates(s, e)
  {
  }

  lemma DriftIsSound(s: Snapshot, now: Store, tops': seq<int>, expected: Snapshot, done: Store, tops: seq<int>)
    requires StoreOk(now) && StoreOk(done) && TopsOk(tops) && TopsOk(tops') && tops'[3..] == tops[3..]
    requires Describes(s, now, tops') && Describes(expected, done, tops)
    requires IsSnapshot(s, s.frames) && IsSnapshot(expected, expected.frames)
    requires exists e :: IsSnapshot(e, expected.frames) && DiffersOnlyByPeriodStartDate(s, e)
    ensures UpToDays(now, done) && SameButDates(s, expected)
  {
    hide Describes, IsSnapshot, StoreOk, UpToDays, DiffersOnlyByPeriodStartDate, NoOddFrames, DriftedBlock;
    var e :| IsSnapshot(e, expected.frames) && DiffersOnlyByPeriodStartDate(s, e);
    SameFrames(e, expected.frames);
    SnapshotDependsOnContent(e, expected.frames, expected, expected.frames);
    DescribedLengths(expected, done, tops);
    OddFramesOfContent(expected, e);
    SnapshotSizes(s);
    SnapshotSizes(e);
    DriftIsHarmless(s, e);
    DriftedStore(s, now, tops', expected, done, tops);
  }

  lemma OddFramesOfContent(e: Snapshot, e': Snapshot)
    requires NoOddFrames(e) && e.blocks == e'.blocks && e.extras == e'.extras
    ensures NoOddFrames(e')
  {
  }

  /** A plan over all three slots expects blocks of the standard lengths, whatever the controller held. */
  lemma PlannedBlocksStandard(before: Snapshot, backup: Backup, stations: int, ws: seq<Frame>, expected: Snapshot)
    requires IsSnapshot(before, before.frames) && PlanYields(before, backup, stations, 3, ws, expected)
    requires forall i :: 0 <= i < 3 ==> i in backup
    ensures IsSnapshot(expected, expected.frames) && |expected.blocks| == 3
    ensures forall i :: 0 <= i < 3 ==> StandardBlock(expected.blocks[i])
  {
    hide IsSnapshot, PlanYields, BackupChanges, PatchedBlock, StandardBlock, AllOk, Explains;
    PlanBlocks(before, backup, stations, 3, ws, expected);
    forall i | 0 <= i < 3
      ensures StandardBlock(expected.blocks[i])
    {
      PatchedIsStandard(before.blocks[i], BackupChanges(backup[i], stations));
    }
  }

  /** So whatever is accepted by day bytes against the journal of a restore of all three slots differs in no other byte
      of A/B/C, and in no decoded field but the controller's date: no odd frame can slip through there. */
  lemma PlannedDriftIsHarmless(before: Snapshot, backup: Backup, stations: int, ws: seq<Frame>, expected: Snapshot,
                               j: Journal, s: Snapshot)
    requires IsSnapshot(before, before.frames) && PlanYields(before, backup, stations, 3, ws, expected)
    requires forall i :: 0 <= i < 3 ==> i in backup
    requires j.expectedFrames == expected.frames && IsSnapshot(s, s.frames) && Drifted(s, j)
    ensures |s.blocks| == |expected.blocks| == 3
    ensures forall i :: 0 <= i < 3 ==> DriftedBlock(s.blocks[i], expected.blocks[i])
    ensures SameButDates(s, expected)
  {
    hide IsSnapshot, PlanYields, DiffersOnlyByPeriodStartDate, StandardBlock, DriftedBlock;
    PlannedBlocksStandard(before, backup, stations, ws, expected);
    var e :| IsSnapshot(e, j.expectedFrames) && DiffersOnlyByPeriodStartDate(s, e);
    SameFrames(e, expected.frames);
    SnapshotDependsOnContent(e, expected.frames, expected, expected.frames);
    StandardBlocksDrift(s, e);
  }
}
