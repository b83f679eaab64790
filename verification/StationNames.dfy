/** Output-name snapshots of `ble/station_names.py` and the name-write frames of `protocol.py`. */
module StationNames {
  import opened Options
  import opened Bytes
  import opened Snapshots

  /** Raw 32-byte names by 1-based output number. */
  type Names = map<int, Frame>

  predicate NamesOk(names: Names) {
    forall st :: st in names ==> 1 <= st <= 12 && |names[st]| == 32
  }

  // ---- reading -----------------------------------------------------------------------

  predicate WellFormed(f: Frame) {
    |f| == 20 && (f[0] == 0x36 || f[0] == 0x35) && f[1] == 0x12 && f[3] < 12
  }

  function StationOf(f: Frame): (st: int)
    requires WellFormed(f)
    ensures 1 <= st <= 12
  {
    f[3] + 1
  }

  /** 1 for the first half of the name, 0 for the second. */
  function PartOf(f: Frame): (part: int)
    requires WellFormed(f)
    ensures 0 <= part < 2
  {
    f[2] % 2
  }

  /** A read response for output `out`: opcode 36 or 35, the length, a sequence number, and half a name. */
  ghost predicate NameFragment(f: Frame, opcode: byte, q: byte, out: byte, half: Frame) {
    opcode in [0x35, 0x36] && 1 <= out <= 12 && |half| == 16 && f == [opcode, 18, q, out - 1] + half
  }

  /** Exactly these frames are well formed; even numbers carry second halves. */
  lemma WellFormedMeans(f: Frame)
    ensures WellFormed(f) <==> exists opcode, q, out, half :: NameFragment(f, opcode, q, out, half)
    ensures forall opcode, q, out, half :: NameFragment(f, opcode, q, out, half) ==>
              StationOf(f) == out && (PartOf(f) == 0 <==> q % 2 == 0) && f[4..] == half
  {
    if WellFormed(f) { assert NameFragment(f, f[0], f[2], f[3] + 1, f[4..]); }
  }

  ghost predicate HasHalf(frames: seq<Frame>, st: int, part: int)
    requires forall f :: f in frames ==> WellFormed(f)
  {
    exists f :: f in frames && StationOf(f) == st && PartOf(f) == part
  }

  ghost predicate HasSequence(frames: seq<Frame>, q: int)
    requires forall f :: f in frames ==> WellFormed(f)
  {
    exists f :: f in frames && WellFormed(f) && f[2] == q
  }

  /** What a complete response is, without any bookkeeping. */
  ghost predicate Acceptable(frames: seq<Frame>, physical: int) {
    && (forall f :: f in frames ==> WellFormed(f))
    && (forall f, g :: f in frames && g in frames && StationOf(f) == StationOf(g) && PartOf(f) == PartOf(g) ==> f[4..] == g[4..])
    && (forall f :: f in frames ==> HasHalf(frames, StationOf(f), 0) && HasHalf(frames, StationOf(f), 1))
    && (forall st :: 1 <= st <= physical ==> HasHalf(frames, st, 0) && HasHalf(frames, st, 1))
    && |frames| >= 2 * physical && (forall f :: f in frames ==> |frames| >= 2 * StationOf(f))
    && (forall f, q :: f in frames && 0 <= q <= f[2] ==> HasSequence(frames, q))
  }

  ghost predicate HoldsHalf(names: Names, f: Frame)
    requires NamesOk(names) && WellFormed(f)
  {
    StationOf(f) in names
    && f[4..] == if PartOf(f) == 1 then names[StationOf(f)][..16] else names[StationOf(f)][16..]
  }

  /** `names` has exactly the reported outputs, each with its halves in place. */
  ghost predicate NamesOf(frames: seq<Frame>, names: Names)
    requires forall f :: f in frames ==> WellFormed(f)
  {
    && NamesOk(names)
    && (forall st :: st in names ==> HasHalf(frames, st, 0))
    && forall f :: f in frames ==> HoldsHalf(names, f)
  }

  type Halves = map<(int, int), Frame>

  ghost predicate Gathered(frames: seq<Frame>, parts: Halves, sequences: set<int>) {
    && (forall f :: f in frames ==> WellFormed(f))
    && (forall f :: f in frames ==> (StationOf(f), PartOf(f)) in parts && parts[(StationOf(f), PartOf(f))] == f[4..])
    && (forall key :: key in parts ==> HasHalf(frames, key.0, key.1) && |parts[key]| == 16)
    && (forall q :: q in sequences <==> HasSequence(frames, q))
  }

  lemma GatherStep(frames: seq<Frame>, f: Frame, parts: Halves, sequences: set<int>)
    requires Gathered(frames, parts, sequences) && WellFormed(f)
    requires var key := (StationOf(f), PartOf(f)); key !in parts || parts[key] == f[4..]
    ensures Gathered(frames + [f], parts[(StationOf(f), PartOf(f)) := f[4..]], sequences + {f[2]})
  {
  }

  lemma GatherConflict(frames: seq<Frame>, f: Frame, parts: Halves, sequences: set<int>)
    requires Gathered(frames, parts, sequences) && WellFormed(f)
    requires var key := (StationOf(f), PartOf(f)); key in parts && parts[key] != f[4..]
    ensures exists g :: g in frames && StationOf(g) == StationOf(f) && PartOf(g) == PartOf(f) && g[4..] != f[4..]
  {
  }

  /** The three completeness checks, on the gathered dictionaries. */
  predicate CompleteHalves(parts: Halves, physical: int) {
    && (forall key :: key in parts ==> (key.0, 0) in parts && (key.0, 1) in parts)
    && forall st :: 1 <= st <= physical ==> (st, 0) in parts && (st, 1) in parts
  }

  predicate EnoughFrames(parts: Halves, physical: int, received: int) {
    received >= 2 * physical && forall key :: key in parts ==> received >= 2 * key.0
  }

  predicate Gapless(sequences: set<int>) {
    forall top :: top in sequences ==> forall q :: 0 <= q <= top ==> q in sequences
  }

  lemma KeysAreHalves(frames: seq<Frame>, parts: Halves, sequences: set<int>)
    requires Gathered(frames, parts, sequences)
    ensures forall f :: f in frames ==> WellFormed(f)
    ensures forall st, part :: (st, part) in parts <==> HasHalf(frames, st, part)
    ensures forall q :: q in sequences <==> HasSequence(frames, q)
    ensures forall f, g :: f in frames && g in frames && StationOf(f) == StationOf(g) && PartOf(f) == PartOf(g) ==> f[4..] == g[4..]
  {
  }

  lemma RejectedForReason(frames: seq<Frame>, physical: int, parts: Halves, sequences: set<int>)
    requires Gathered(frames, parts, sequences) && Acceptable(frames, physical)
    ensures CompleteHalves(parts, physical) && EnoughFrames(parts, physical, |frames|) && Gapless(sequences)
  {
    KeysAreHalves(frames, parts, sequences);
    hide WellFormed, StationOf, PartOf, Gathered;
    forall key | key in parts
      ensures (key.0, 0) in parts && (key.0, 1) in parts && |frames| >= 2 * key.0
    {
      assert (key.0, key.1) in parts;
      var f :| f in frames && StationOf(f) == key.0 && PartOf(f) == key.1;
    }
    forall top, q | top in sequences && 0 <= q <= top
      ensures q in sequences
    {
      var f :| f in frames && WellFormed(f) && f[2] == top;
    }
  }

  lemma AcceptedForReason(frames: seq<Frame>, physical: int, parts: Halves, sequences: set<int>)
    requires Gathered(frames, parts, sequences)
    requires CompleteHalves(parts, physical) && EnoughFrames(parts, physical, |frames|) && Gapless(sequences)
    ensures Acceptable(frames, physical)
  {
    KeysAreHalves(frames, parts, sequences);
    hide WellFormed, StationOf, PartOf, Gathered;
    forall f | f in frames
      ensures HasHalf(frames, StationOf(f), 0) && HasHalf(frames, StationOf(f), 1) && |frames| >= 2 * StationOf(f)
    {
      assert HasHalf(frames, StationOf(f), PartOf(f));
      assert (StationOf(f), PartOf(f)) in parts;
    }
    forall f, q | f in frames && WellFormed(f) && 0 <= q <= f[2]
      ensures HasSequence(frames, q)
    {
      assert HasSequence(frames, f[2]);
      assert q in sequences;
    }
  }

  /** The names spelled by complete halves: odd part first. */
  function Joined(parts: Halves): Names
    requires CompleteHalves(parts, 0)
  {
    map key | key in parts :: key.0 := parts[(key.0, 1)] + parts[(key.0, 0)]
  }

  lemma JoinedAt(parts: Halves, st: int)
    requires CompleteHalves(parts, 0)
    ensures st in Joined(parts) <==> (st, 0) in parts
    ensures st in Joined(parts) ==> (st, 1) in parts && Joined(parts)[st] == parts[(st, 1)] + parts[(st, 0)]
  {
    if st in Joined(parts) {
      var key :| key in parts && key.0 == st;
      assert (key.0, 0) in parts;
    }
  }

  lemma GatheredHalf(frames: seq<Frame>, parts: Halves, sequences: set<int>, st: int, part: int)
    requires Gathered(frames, parts, sequences) && (st, part) in parts
    ensures HasHalf(frames, st, part) && |parts[(st, part)]| == 16
  {
    hide WellFormed, StationOf, PartOf;
  }

  lemma HalfOfStation(frames: seq<Frame>, st: int, part: int)
    requires (forall f :: f in frames ==> WellFormed(f)) && HasHalf(frames, st, part)
    ensures 1 <= st <= 12
  {
  }

  lemma GatheredFrame(frames: seq<Frame>, parts: Halves, sequences: set<int>, f: Frame)
    requires Gathered(frames, parts, sequences) && CompleteHalves(parts, 0) && f in frames
    ensures WellFormed(f) && (StationOf(f), 0) in parts && (StationOf(f), 1) in parts
    ensures parts[(StationOf(f), PartOf(f))] == f[4..]
  {
    hide WellFormed, StationOf, PartOf;
    assert (StationOf(f), PartOf(f)) in parts;
  }

  lemma JoinedStation(frames: seq<Frame>, parts: Halves, sequences: set<int>, st: int)
    requires Gathered(frames, parts, sequences) && CompleteHalves(parts, 0) && st in Joined(parts)
    ensures 1 <= st <= 12 && |Joined(parts)[st]| == 32
    ensures (forall f :: f in frames ==> WellFormed(f)) && HasHalf(frames, st, 0)
  {
    AllWellFormed(frames, parts, sequences);
    hide StationOf, PartOf, WellFormed, Joined, CompleteHalves, HasHalf, Gathered;
    JoinedAt(parts, st);
    GatheredHalf(frames, parts, sequences, st, 0);
    GatheredHalf(frames, parts, sequences, st, 1);
    HalfOfStation(frames, st, 0);
  }

  lemma JoinedOk(frames: seq<Frame>, parts: Halves, sequences: set<int>)
    requires Gathered(frames, parts, sequences) && CompleteHalves(parts, 0)
    ensures NamesOk(Joined(parts))
  {
    hide StationOf, PartOf, WellFormed, Joined, CompleteHalves, HasHalf, Gathered;
    forall st | st in Joined(parts)
      ensures 1 <= st <= 12 && |Joined(parts)[st]| == 32
    {
      JoinedStation(frames, parts, sequences, st);
    }
  }

  lemma JoinedFrame(frames: seq<Frame>, parts: Halves, sequences: set<int>, f: Frame)
    requires Gathered(frames, parts, sequences) && CompleteHalves(parts, 0) && f in frames
    ensures WellFormed(f) && NamesOk(Joined(parts)) && HoldsHalf(Joined(parts), f)
  {
    JoinedOk(frames, parts, sequences);
    hide StationOf, PartOf, WellFormed, Joined, CompleteHalves, HasHalf, Gathered;
    GatheredFrame(frames, parts, sequences, f);
    JoinedAt(parts, StationOf(f));
    GatheredHalf(frames, parts, sequences, StationOf(f), 0);
    GatheredHalf(frames, parts, sequences, StationOf(f), 1);
  }

  lemma JoinedNames(frames: seq<Frame>, parts: Halves, sequences: set<int>)
    requires Gathered(frames, parts, sequences) && CompleteHalves(parts, 0)
    ensures NamesOf(frames, Joined(parts))
  {
    AllWellFormed(frames, parts, sequences);
    JoinedOk(frames, parts, sequences);
    hide StationOf, PartOf, WellFormed, Joined, CompleteHalves, HasHalf, Gathered, NamesOk, HoldsHalf;
    forall st | st in Joined(parts)
      ensures HasHalf(frames, st, 0)
    {
      JoinedStation(frames, parts, sequences, st);
    }
    forall f | f in frames
      ensures HoldsHalf(Joined(parts), f)
    {
      JoinedFrame(frames, parts, sequences, f);
    }
  }

  lemma AllWellFormed(frames: seq<Frame>, parts: Halves, sequences: set<int>)
    requires Gathered(frames, parts, sequences)
    ensures forall f :: f in frames ==> WellFormed(f)
  {
  }

  /** `StationNameSnapshot.from_frames`. */
  method FromFrames(frames: seq<Frame>, physical: int) returns (r: Result<Names>)
    ensures r.Ok? <==> Acceptable(frames, physical)
    ensures r.Ok? ==> NamesOf(frames, r.value)
    ensures r.Err? ==> r.error == InvalidSnapshot
  {
    hide WellFormed, StationOf, PartOf, CompleteHalves, EnoughFrames, Gapless, Gathered, Acceptable, NamesOf;
    var parts: Halves, sequences: set<int> := map[], {};
    NothingGathered();
    for n := 0 to |frames|
      invariant Gathered(frames[..n], parts, sequences)
    {
      var f := frames[n];
      if !WellFormed(f) {
        Malformed(frames, physical, f);
        return Err(InvalidSnapshot);
      }
      var station, part := StationOf(f), PartOf(f);
      WellFormedLength(f);
      if (station, part) in parts && parts[(station, part)] != f[4..] {
        GatherConflict(frames[..n], f, parts, sequences);
        GatheredWellFormed(frames[..n], parts, sequences);
        Conflicting(frames, physical, n);
        return Err(InvalidSnapshot);
      }
      GatherStep(frames[..n], f, parts, sequences);
      assert frames[..n + 1] == frames[..n] + [f];
      parts, sequences := parts[(station, part) := f[4..]], sequences + {f[2]};
    }
    assert frames[..|frames|] == frames;
    if !CompleteHalves(parts, physical) || !EnoughFrames(parts, physical, |frames|) || !Gapless(sequences) {
      if Acceptable(frames, physical) { RejectedForReason(frames, physical, parts, sequences); }
      return Err(InvalidSnapshot);
    }
    AcceptedForReason(frames, physical, parts, sequences);
    HalvesAnyWidth(parts, physical);
    JoinedNames(frames, parts, sequences);
    r := Ok(Joined(parts));
  }

  lemma GatheredWellFormed(frames: seq<Frame>, parts: Halves, sequences: set<int>)
    requires Gathered(frames, parts, sequences)
    ensures forall f :: f in frames ==> WellFormed(f)
  {
  }

  lemma NothingGathered()
    ensures Gathered([], map[], {})
  {
  }

  lemma WellFormedLength(f: Frame)
    requires WellFormed(f)
    ensures |f| == 20
  {
  }

  lemma HalvesAnyWidth(parts: Halves, physical: int)
    requires CompleteHalves(parts, physical)
    ensures CompleteHalves(parts, 0)
  {
  }

  lemma Malformed(frames: seq<Frame>, physical: int, f: Frame)
    requires f in frames && !WellFormed(f)
    ensures !Acceptable(frames, physical)
  {
  }

  lemma Conflicting(frames: seq<Frame>, physical: int, n: nat)
    requires n < |frames| && (forall g :: g in frames[..n] ==> WellFormed(g)) && WellFormed(frames[n])
    requires exists g :: g in frames[..n] && StationOf(g) == StationOf(frames[n]) && PartOf(g) == PartOf(frames[n])
                         && g[4..] != frames[n][4..]
    ensures !Acceptable(frames, physical)
  {
  }

  // ---- what a device emits ----------------------------------------------------------------

  /** The fragment with sequence id `q` of a device with `m` outputs: ids count down, odd ids carry the
      first half of a name. */
  function Emitted(names: seq<Frame>, q: int): (f: Frame)
    requires 1 <= |names| <= 12 && (forall st :: 0 <= st < |names| ==> |names[st]| == 32) && 0 <= q < 2 * |names|
    ensures WellFormed(f) && f[2] == q && PartOf(f) == q % 2 && StationOf(f) == |names| - q / 2
  {
    var st := (2 * |names| - 1 - q) / 2;
    [0x36, 0x12, q, st] + if q % 2 == 1 then names[st][..16] else names[st][16..]
  }

  /** A response that lost or repeated fragments of the emission, in any order, but invented none. */
  ghost predicate DrawnFrom(frames: seq<Frame>, names: seq<Frame>) {
    && 1 <= |names| <= 12 && (forall st :: 0 <= st < |names| ==> |names[st]| == 32)
    && forall f :: f in frames ==> exists q :: 0 <= q < 2 * |names| && f == Emitted(names, q)
  }

  ghost predicate NothingMissing(frames: seq<Frame>, names: seq<Frame>)
    requires DrawnFrom(frames, names)
  {
    forall q :: 0 <= q < 2 * |names| ==> Emitted(names, q) in frames
  }

  function Stored(names: seq<Frame>): (r: Names)
    ensures forall st :: st in r <==> 1 <= st <= |names|
    ensures forall st :: st in r ==> r[st] == names[st - 1]
  {
    map st | st in Range(1, |names|) :: names[st - 1]
  }

  lemma DrawnWellFormed(frames: seq<Frame>, names: seq<Frame>)
    requires DrawnFrom(frames, names)
    ensures forall f :: f in frames ==> WellFormed(f) && 0 <= f[2] < 2 * |names| && f == Emitted(names, f[2])
  {
  }

  /** Every loss is noticed: if the response is accepted, nothing is missing. Without the top pair the
      sequence has no gap, so this is where the configured width of at least one output matters. */
  lemma AcceptedIsWhole(frames: seq<Frame>, names: seq<Frame>, physical: int, q: int)
    requires DrawnFrom(frames, names) && physical >= 1 && Acceptable(frames, physical)
    requires 0 <= q < 2 * |names|
    ensures physical <= |names| && Emitted(names, q) in frames
  {
    DrawnWellFormed(frames, names);
    hide Emitted, DrawnFrom;
    assert HasHalf(frames, 1, 1);
    var f :| f in frames && StationOf(f) == 1 && PartOf(f) == 1;
    assert f[2] == 2 * |names| - 1;
    assert HasSequence(frames, q);
    var g :| g in frames && g[2] == q;
    assert HasHalf(frames, physical, 0);
    var h :| h in frames && StationOf(h) == physical && PartOf(h) == 0;
  }

  lemma {:induction false} DistinctFrames(frames: seq<Frame>, names: seq<Frame>, n: nat)
    requires DrawnFrom(frames, names) && n <= 2 * |names| && forall q :: 0 <= q < n ==> Emitted(names, q) in frames
    ensures |frames| >= n
    decreases n
  {
    hide WellFormed;
    if n > 0 {
      var f := Emitted(names, n - 1);
      var k :| 0 <= k < |frames| && frames[k] == f;
      var rest := frames[..k] + frames[k + 1..];
      forall q | 0 <= q < n - 1
        ensures Emitted(names, q) in rest
      {
        var j :| 0 <= j < |frames| && frames[j] == Emitted(names, q);
        assert j != k;
        if j < k { assert rest[j] == frames[j]; } else { assert rest[j - 1] == frames[j]; }
      }
      forall g | g in rest
        ensures g in frames
      {
      }
      DistinctFrames(rest, names, n - 1);
    }
  }

  lemma WholeHalves(frames: seq<Frame>, names: seq<Frame>, st: int)
    requires DrawnFrom(frames, names) && NothingMissing(frames, names) && 1 <= st <= |names|
    ensures (forall f :: f in frames ==> WellFormed(f)) && HasHalf(frames, st, 0) && HasHalf(frames, st, 1)
  {
    DrawnWellFormed(frames, names);
    EmittedHalves(names, st);
    hide WellFormed, StationOf, PartOf, Emitted;
    var q := 2 * (|names| - st);
    assert Emitted(names, q) in frames && Emitted(names, q + 1) in frames;
  }

  lemma WholeSequence(frames: seq<Frame>, names: seq<Frame>, q: int)
    requires DrawnFrom(frames, names) && NothingMissing(frames, names) && 0 <= q < 2 * |names|
    ensures (forall f :: f in frames ==> WellFormed(f)) && HasSequence(frames, q)
  {
    DrawnWellFormed(frames, names);
    assert Emitted(names, q) in frames && Emitted(names, q)[2] == q;
  }

  lemma DrawnFrame(frames: seq<Frame>, names: seq<Frame>, f: Frame)
    requires DrawnFrom(frames, names) && f in frames
    ensures WellFormed(f) && 0 <= f[2] < 2 * |names| && f == Emitted(names, f[2])
    ensures 1 <= StationOf(f) <= |names| && f[2] as int == 2 * (|names| - StationOf(f)) + PartOf(f)
  {
  }

  lemma WholeIsAccepted(frames: seq<Frame>, names: seq<Frame>, physical: int)
    requires DrawnFrom(frames, names) && 1 <= physical <= |names| && NothingMissing(frames, names)
    ensures Acceptable(frames, physical)
  {
    DrawnWellFormed(frames, names);
    DistinctFrames(frames, names, 2 * |names|);
    hide WellFormed, DrawnFrom, NothingMissing, Emitted, StationOf, PartOf, HasHalf, HasSequence;
    forall f | f in frames
      ensures 1 <= StationOf(f) <= |names| && f[2] as int == 2 * (|names| - StationOf(f)) + PartOf(f)
    {
      DrawnFrame(frames, names, f);
    }
    forall st | 1 <= st <= |names|
      ensures HasHalf(frames, st, 0) && HasHalf(frames, st, 1)
    {
      WholeHalves(frames, names, st);
    }
    forall f, g | f in frames && g in frames && StationOf(f) == StationOf(g) && PartOf(f) == PartOf(g)
      ensures f[4..] == g[4..]
    {
      assert f[2] == g[2] && f == Emitted(names, f[2]) && g == Emitted(names, g[2]);
    }
    forall f, q | f in frames && 0 <= q <= f[2]
      ensures HasSequence(frames, q)
    {
      WholeSequence(frames, names, q);
    }
  }

  /** Reads detect every loss: of all the lists drawn from an emission, exactly those that miss no fragment
      are accepted (when the configured width does not exceed the device's), and they give the stored names. */
  lemma ReadsDetectLoss(frames: seq<Frame>, names: seq<Frame>, physical: int)
    requires DrawnFrom(frames, names) && physical >= 1
    ensures Acceptable(frames, physical) <==> NothingMissing(frames, names) && physical <= |names|
    ensures forall r :: Acceptable(frames, physical) && NamesOf(frames, r) ==> r == Stored(names)
  {
    hide Emitted, WellFormed;
    if Acceptable(frames, physical) {
      forall q | 0 <= q < 2 * |names|
        ensures physical <= |names| && Emitted(names, q) in frames
      {
        AcceptedIsWhole(frames, names, physical, q);
      }
      assert Emitted(names, 0) in frames;
      forall r | NamesOf(frames, r)
        ensures r == Stored(names)
      {
        WholeNames(frames, names, r);
      }
    }
    if NothingMissing(frames, names) && physical <= |names| {
      WholeIsAccepted(frames, names, physical);
    }
  }

  lemma WholeNames(frames: seq<Frame>, names: seq<Frame>, r: Names)
    requires DrawnFrom(frames, names) && NothingMissing(frames, names)
    requires (forall f :: f in frames ==> WellFormed(f)) && NamesOf(frames, r)
    ensures r == Stored(names)
  {
    forall st
      ensures st in r <==> 1 <= st <= |names|
      ensures st in r && 1 <= st <= |names| ==> r[st] == names[st - 1]
    {
      if st in r { ReportedOutput(frames, names, r, st); }
      if 1 <= st <= |names| { StoredOutput(frames, names, r, st); }
    }
  }

  lemma ReportedOutput(frames: seq<Frame>, names: seq<Frame>, r: Names, st: int)
    requires DrawnFrom(frames, names) && (forall f :: f in frames ==> WellFormed(f)) && NamesOf(frames, r) && st in r
    ensures 1 <= st <= |names|
  {
  }

  lemma EmittedHalves(names: seq<Frame>, st: int)
    requires 1 <= |names| <= 12 && (forall i :: 0 <= i < |names| ==> |names[i]| == 32) && 1 <= st <= |names|
    ensures var q := 2 * (|names| - st); var f, g := Emitted(names, q + 1), Emitted(names, q);
            && StationOf(f) == st && PartOf(f) == 1 && f[4..] == names[st - 1][..16]
            && StationOf(g) == st && PartOf(g) == 0 && g[4..] == names[st - 1][16..]
  {
  }

  lemma StoredOutput(frames: seq<Frame>, names: seq<Frame>, r: Names, st: int)
    requires DrawnFrom(frames, names) && NothingMissing(frames, names)
    requires (forall f :: f in frames ==> WellFormed(f)) && NamesOf(frames, r) && 1 <= st <= |names|
    ensures st in r && r[st] == names[st - 1]
  {
    EmittedHalves(names, st);
    hide Emitted, WellFormed, StationOf, PartOf;
    var q := 2 * (|names| - st);
    var f, g := Emitted(names, q + 1), Emitted(names, q);
    assert f in frames && g in frames;
    assert HoldsHalf(r, f) && HoldsHalf(r, g);
    assert r[st] == r[st][..16] + r[st][16..];
    assert names[st - 1] == names[st - 1][..16] + names[st - 1][16..];
  }

  // ---- writing --------------------------------------------------------------------------------

  predicate Blank(name: Frame) {
    forall k :: 0 <= k < |name| ==> 9 <= name[k] <= 13 || 28 <= name[k] <= 32
  }

  predicate Nameable(station: int, name: Frame, physical: int) {
    1 <= station <= physical <= 12 && !Blank(name) && NulFree(name) && |name| <= 32
  }

  /** Tab, line feed, vertical tab, form feed, carriage return, the four separators, and the space. */
  predicate White(c: byte) {
    c == 9 || c == 10 || c == 11 || c == 12 || c == 13 || c == 28 || c == 29 || c == 30 || c == 31 || c == 32
  }

  lemma BlankMeans(name: Frame)
    ensures Blank(name) <==> forall c :: c in name ==> White(c)
  {
    forall k | 0 <= k < |name|
      ensures name[k] in name && (White(name[k]) <==> 9 <= name[k] <= 13 || 28 <= name[k] <= 32)
    {
    }
    hide White;
  }

  /** An output of the controller can get any name of one to 32 bytes without NUL that shows something. */
  lemma NameableMeans(station: int, name: Frame, physical: int)
    ensures Nameable(station, name, physical) <==>
              && 0 < station < 13 && station <= physical < 13
              && |name| < 33 && 0 !in name && exists c :: c in name && !White(c)
  {
    hide Blank, White;
    BlankMeans(name);
  }

  /** `pack_station_name`: two frames, part 0 carrying the first half. */
  function PackStationName(station: int, name: Frame, physical: int): (r: Result<seq<Frame>>)
    ensures r.Err? ==> r.error == ValueError
    ensures r.Ok? <==> Nameable(station, name, physical)
    ensures r.Ok? ==> |r.value| == 2 && |r.value[0]| == 20 && |r.value[1]| == 20
  {
    if !Nameable(station, name, physical) then Err(ValueError)
    else
      var padded := Pad(name, 32);
      Ok([[0x33, 0x12, 0, station - 1] + padded[..16], [0x33, 0x12, 1, station - 1] + padded[16..]])
  }

  /** `renamed`. */
  function Renamed(names: Names, station: int, name: Frame, physical: int): (r: Result<Names>)
    ensures r.Err? ==> r.error == ValueError
    ensures r.Ok? <==> Nameable(station, name, physical)
  {
    var frames := PackStationName(station, name, physical);
    if frames.Err? then Err(frames.error) else Ok(names[station := frames.value[0][4..] + frames.value[1][4..]])
  }

  /** A name write: opcode, length, part, output. */
  predicate NameWrite(frame: Frame) {
    |frame| == 20 && frame[0] == 0x33 && frame[1] == 0x12 && frame[2] in [0, 1]
  }

  /** The device stores the half that a `33 12 part output` frame carries, and ignores any other frame. */
  function StoreHalf(names: Names, frame: Frame): (r: Names)
    requires NamesOk(names) && |frame| == 20
    ensures NamesOk(r) && r.Keys == names.Keys
  {
    var st := frame[3] as int + 1;
    if !NameWrite(frame) || st !in names then names
    else if frame[2] == 0 then names[st := frame[4..] + names[st][16..]]
    else names[st := names[st][..16] + frame[4..]]
  }

  /** The name an output shows. */
  function Shown(raw: Frame): Frame {
    CutNul(raw)
  }

  /** Both halves together rename exactly the one output, to exactly the given name. */
  lemma WriteRenames(names: Names, station: int, name: Frame, physical: int)
    requires NamesOk(names) && station in names && Nameable(station, name, physical)
    ensures var ws := PackStationName(station, name, physical).value;
            && Renamed(names, station, name, physical) == Ok(StoreHalf(StoreHalf(names, ws[0]), ws[1]))
            && Renamed(names, station, name, physical) == Ok(names[station := Pad(name, 32)])
            && Shown(Renamed(names, station, name, physical).value[station]) == name
  {
    CutNulPad(name, 32);
    var padded, ws := Pad(name, 32), PackStationName(station, name, physical).value;
    assert padded == padded[..16] + padded[16..];
    assert ws[0][4..] == padded[..16] && ws[1][4..] == padded[16..];
    var once := StoreHalf(names, ws[0]);
    assert ws[0][3] == station - 1 && ws[1][3] == station - 1 && ws[1][2] == 1;
    assert once == names[station := padded[..16] + names[station][16..]];
    assert once[station][..16] == padded[..16];
    assert StoreHalf(once, ws[1]) == once[station := padded] == names[station := padded];
  }

  lemma StoredAfter(stored: seq<Frame>, station: int, raw: Frame)
    requires 1 <= station <= |stored|
    ensures Stored(stored[station - 1 := raw]) == Stored(stored)[station := raw]
  {
  }

  /** A device whose output `station` was renamed reads back as exactly the expected snapshot. */
  lemma RenameReadsBack(stored: seq<Frame>, station: int, name: Frame, physical: int, frames: seq<Frame>)
    requires 1 <= |stored| <= 12 && forall st :: 0 <= st < |stored| ==> |stored[st]| == 32
    requires 1 <= station <= |stored| && Nameable(station, name, physical)
    requires physical <= |stored|
    requires var after := stored[station - 1 := Pad(name, 32)]; DrawnFrom(frames, after) && NothingMissing(frames, after)
    ensures Acceptable(frames, physical)
    ensures forall r :: NamesOf(frames, r) ==> Renamed(Stored(stored), station, name, physical) == Ok(r)
    ensures forall r, st :: NamesOf(frames, r) && st in r && st != station ==> r[st] == stored[st - 1]
  {
    hide Emitted, WellFormed, NamesOf, DrawnFrom, NothingMissing, Acceptable, Renamed, Stored;
    var after := stored[station - 1 := Pad(name, 32)];
    ReadsDetectLoss(frames, after, physical);
    StoredAfter(stored, station, Pad(name, 32));
    WriteRenames(Stored(stored), station, name, physical);
  }

  // ---- revision ------------------------------------------------------------------------------------

  /** The byte stream digested by `revision`, outputs up to `n` in order. */
  function NameStream(names: Names, n: nat): Frame
    requires n <= 12 && NamesOk(names)
  {
    if n == 0 then [] else NameStream(names, n - 1) + if n in names then [n] + names[n] else []
  }

  function NameRevision(names: Names): Frame
    requires NamesOk(names)
  {
    NameStream(names, 12)
  }

  lemma {:induction false} LastOutput(names: Names, n: nat)
    requires n <= 12 && NamesOk(names)
    ensures var s := NameStream(names, n); s != [] ==> |s| >= 33 && 1 <= s[|s| - 33] <= n
  {
    if n > 0 && n !in names {
      LastOutput(names, n - 1);
      assert NameStream(names, n) == NameStream(names, n - 1);
    }
  }

  lemma TailOutput(names: Names, n: nat)
    requires 1 <= n <= 12 && NamesOk(names)
    ensures var s := NameStream(names, n);
            n in names ==> |s| >= 33 && s[|s| - 33] == n && s[|s| - 32..] == names[n] && s[..|s| - 33] == NameStream(names, n - 1)
    ensures n !in names ==> NameStream(names, n) == NameStream(names, n - 1)
  {
  }

  lemma {:induction false} StreamIdentifies(a: Names, b: Names, n: nat)
    requires n <= 12 && NamesOk(a) && NamesOk(b) && NameStream(a, n) == NameStream(b, n)
    ensures forall st :: 1 <= st <= n ==> (st in a <==> st in b) && (st in a && st in b ==> a[st] == b[st])
  {
    hide NameStream;
    if n > 0 {
      LastOutput(a, n - 1);
      LastOutput(b, n - 1);
      TailOutput(a, n);
      TailOutput(b, n);
      if n in a <==> n in b {
        StreamIdentifies(a, b, n - 1);
      }
    }
  }

  /** Equal revisions mean equal names. */
  lemma NameRevisionIdentifies(a: Names, b: Names)
    requires NamesOk(a) && NamesOk(b)
    ensures NameRevision(a) == NameRevision(b) <==> a == b
  {
    if NameRevision(a) == NameRevision(b) {
      StreamIdentifies(a, b, 12);
      forall st
        ensures st in a <==> st in b
        ensures st in a && st in b ==> a[st] == b[st]
      {
      }
    }
  }
}
