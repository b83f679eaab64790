/** Durable output renames: `StationNameManager` of `station_names.py` over the one-shot name write of
    `client_v2.py`, against a controller that may drop, reject or half-apply a write, and across crashes. */
module RenameJournal {
  import opened Options
  import opened Bytes
  import opened StationNames

  datatype NameJournal = NameJournal(beforeRevision: Frame, expectedRevision: Frame, beforeNames: Names, expectedNames: Names)

  /** One output gets these 32 bytes. */
  datatype Rename = Rename(station: int, raw: Frame)

  // ---- the environment -----------------------------------------------------------------

  /** `Raised` covers errors and cancellation, `Died` the end of this process. */
  datatype Fate = Fine | Raised | Died

  /** A durable save may reach the disk even when it does not return. */
  datatype Saving = Saved | SaveRaised(durable: bool) | SaveDied(durable: bool)

  datatype Reply = Acked | Nacked | Broken(fate: Fate)
  datatype Delivery = Delivery(reply: Reply, applied: bool)

  datatype WriteEnv = WriteEnv(preflight: Fate, deliveries: (Delivery, Delivery), readback: Fate, closing: Fate)

  datatype UpdateEnv = UpdateEnv(admitted: bool, read: Fate, journal: Saving, write: WriteEnv, done: Saving)

  function IsDurable(s: Saving): bool {
    s.Saved? || s.durable
  }

  class NameDevice {
    var names: Names
    ghost var received: seq<Frame>

    method Receive(frame: Frame, applied: bool)
      requires NamesOk(names) && |frame| == 20
      modifies this
      ensures names == if applied then StoreHalf(old(names), frame) else old(names)
      ensures received == old(received) + [frame]
    {
      if applied { names := StoreHalf(names, frame); }
      received := received + [frame];
    }
  }

  // ---- what a history of renames adds up to -----------------------------------------------

  /** The names after the decided renames: each one wholly applied or wholly absent. */
  ghost function Settled(initial: Names, requested: seq<Rename>, fates: seq<bool>): Names
    requires |fates| <= |requested|
  {
    if fates == [] then initial
    else
      var n, m := |fates| - 1, Settled(initial, requested, fates[..|fates| - 1]);
      if fates[n] then m[requested[n].station := requested[n].raw] else m
  }

  lemma SettledMore(initial: Names, requested: seq<Rename>, fates: seq<bool>, r: Rename)
    requires |fates| <= |requested|
    ensures Settled(initial, requested + [r], fates) == Settled(initial, requested, fates)
  {
    assert (requested + [r])[..|requested|] == requested;
    SettledPrefix(initial, requested + [r], fates, |requested|);
  }

  /** Settling in one go or in two is the same. */
  lemma {:induction false} SettledSplit(initial: Names, requested: seq<Rename>, fates: seq<bool>, k: nat)
    requires k <= |fates| <= |requested|
    ensures Settled(initial, requested, fates) == Settled(Settled(initial, requested[..k], fates[..k]), requested[k..], fates[k..])
  {
    var n := |fates| - 1;
    if k == |fates| {
      SettledPrefix(initial, requested, fates, k);
      assert fates[..k] == fates && fates[k..] == [];
    } else {
      SettledSplit(initial, requested, fates[..n], k);
      assert fates[..n][..k] == fates[..k] && fates[..n][k..] == fates[k..][..n - k];
    }
  }

  lemma {:induction false} SettledPrefix(initial: Names, requested: seq<Rename>, fates: seq<bool>, k: nat)
    requires |fates| <= k <= |requested|
    ensures Settled(initial, requested, fates) == Settled(initial, requested[..k], fates)
  {
    if fates != [] { SettledPrefix(initial, requested, fates[..|fates| - 1], k); }
  }

  /** Between two names, each half of the one output is the old or the new one. */
  ghost predicate HalfWay(was: Names, r: Rename, now: Names) {
    && NamesOk(was) && NamesOk(now) && now.Keys == was.Keys && |r.raw| == 32 && 1 <= r.station <= 12
    && (forall st :: st in was && st != r.station ==> now[st] == was[st])
    && (r.station in was ==>
          (now[r.station][..16] == was[r.station][..16] || now[r.station][..16] == r.raw[..16])
          && (now[r.station][16..] == was[r.station][16..] || now[r.station][16..] == r.raw[16..]))
  }

  /** Storing either half of the new name keeps it so. */
  lemma HalfStored(was: Names, r: Rename, now: Names, frame: Frame)
    requires HalfWay(was, r, now) && |frame| == 20 && frame[3] as int + 1 == r.station
    requires frame[4..] == if frame[2] == 0 then r.raw[..16] else r.raw[16..]
    ensures HalfWay(was, r, StoreHalf(now, frame))
  {
  }

  /** The names after the first `n` frames, some of which took effect. */
  function Delivered(names: Names, ws: seq<Frame>, ds: (Delivery, Delivery), n: nat): (now: Names)
    requires NamesOk(names) && n <= 2 == |ws| && |ws[0]| == 20 && |ws[1]| == 20
    ensures NamesOk(now)
  {
    var half := if n >= 1 && ds.0.applied then StoreHalf(names, ws[0]) else names;
    if n == 2 && ds.1.applied then StoreHalf(half, ws[1]) else half
  }

  // ---- write_station_name --------------------------------------------------------------------

  datatype Outcome = Verified | Failed | Crashed

  function Interrupted(f: Fate): Outcome {
    if f.Died? then Crashed else Failed
  }

  /** Every exchange of the write session went well. */
  predicate Succeeds(env: WriteEnv) {
    env.preflight.Fine? && env.deliveries.0.reply.Acked? && env.deliveries.1.reply.Acked?
    && env.readback.Fine? && env.closing.Fine?
  }

  /** The process dies in the exchange it has reached. */
  predicate DiesWriting(n: nat, now: Names, expected: Names, env: WriteEnv) {
    || env.preflight.Died?
    || (n >= 1 && env.deliveries.0.reply == Broken(Died))
    || (n == 2 && env.deliveries.1.reply == Broken(Died))
    || (n == 2 && env.deliveries.1.reply.Acked?
        && (env.readback.Died? || (env.readback.Fine? && now == expected && env.closing.Died?)))
  }

  /** The process dies in the save or exchange an update has reached. */
  predicate DiesUpdating(n: nat, now: Names, expected: Names, env: UpdateEnv) {
    env.journal.SaveDied?
    || (env.journal.Saved?
        && (DiesWriting(n, now, expected, env.write) || (Succeeds(env.write) && now == expected && env.done.SaveDied?)))
  }

  /** Every exchange and every save of an update went well, and both frames took effect. */
  predicate GoesWell(env: UpdateEnv) {
    && env.journal.Saved? && Succeeds(env.write) && env.done.Saved?
    && env.write.deliveries.0.applied && env.write.deliveries.1.applied
  }

  /** Frames leave in order, each once, the second only after the first was acknowledged; a verified outcome
      means the controller read back with the expected revision. */
  method WriteStationName(d: NameDevice, ws: seq<Frame>, before: Names, expected: Names, env: WriteEnv, ghost r: Rename)
    returns (outcome: Outcome, ghost n: nat)
    requires NamesOk(d.names) && NamesOk(before) && NamesOk(expected) && HalfWay(before, r, d.names)
    requires |ws| == 2 && |ws[0]| == 20 && |ws[1]| == 20
    requires forall k :: 0 <= k < 2 ==>
               (ws[k][2] == k && ws[k][3] as int + 1 == r.station
                && ws[k][4..] == if k == 0 then r.raw[..16] else r.raw[16..])
    modifies d
    ensures n <= 2 && d.received == old(d.received) + ws[..n] && (n == 2 ==> env.deliveries.0.reply.Acked?)
    ensures n == if !env.preflight.Fine? || NameRevision(old(d.names)) != NameRevision(before) then 0
                 else if env.deliveries.0.reply.Acked? then 2 else 1
    ensures d.names == Delivered(old(d.names), ws, env.deliveries, n)
    ensures HalfWay(before, r, d.names)
    ensures outcome.Verified? ==> n == 2
    ensures outcome.Verified? <==>
              NameRevision(old(d.names)) == NameRevision(before) && Succeeds(env) && d.names == expected
    ensures outcome.Crashed? <==> DiesWriting(n, d.names, expected, env)
  {
    hide NameRevision, HalfWay, StoreHalf;
    HalfWayOk(before, r, d.names);
    n := 0;
    assert ws[..0] == [];
    if !env.preflight.Fine? {
      return Interrupted(env.preflight), 0;
    }
    if NameRevision(d.names) != NameRevision(before) {
      return Failed, 0;
    }
    var deliveries := [env.deliveries.0, env.deliveries.1];
    for part := 0 to 2
      invariant n == part && HalfWay(before, r, d.names) && NamesOk(d.names)
      invariant d.received == old(d.received) + ws[..n] && d.names == Delivered(old(d.names), ws, env.deliveries, n)
      invariant part >= 1 ==> env.deliveries.0.reply.Acked?
      invariant part >= 2 ==> env.deliveries.1.reply.Acked?
    {
      HalfStored(before, r, d.names, ws[part]);
      d.Receive(ws[part], deliveries[part].applied);
      HalfWayOk(before, r, d.names);
      n := part + 1;
      assert ws[..n] == ws[..part] + [ws[part]];
      if deliveries[part].reply.Broken? {
        outcome := Interrupted(deliveries[part].reply.fate);
        return;
      }
      if deliveries[part].reply.Nacked? {
        outcome := Failed;
        return;
      }
    }
    NameRevisionIdentifies(d.names, expected);
    if !env.readback.Fine? {
      outcome := Interrupted(env.readback);
    } else if NameRevision(d.names) != NameRevision(expected) {
      outcome := Failed;
    } else if !env.closing.Fine? {
      outcome := Interrupted(env.closing);
    } else {
      outcome := Verified;
    }
  }

  lemma HalfWayOk(was: Names, r: Rename, now: Names)
    requires HalfWay(was, r, now)
    ensures NamesOk(was) && NamesOk(now)
  {
  }

  // ---- what the manager does, as a function of the state -------------------------------------------

  /** The manager, its durable journal, and the device. */
  datatype World = World(
    pending: Option<NameJournal>, snapshot: Option<Names>, disk: Option<NameJournal>, names: Names, received: seq<Frame>)

  /** A new process: the durable journal is pending, and no names have been read. */
  function Reborn(w: World): (u: World)
    ensures u.names == w.names
  {
    w.(pending := w.disk, snapshot := None)
  }

  /** The pending journal is cleared: in memory unless the save fails, on disk if it gets there. */
  function Cleared(w: World, saving: Saving): World {
    var u := if IsDurable(saving) then w.(disk := None) else w;
    match saving
    case Saved => u.(pending := None)
    case SaveRaised(_) => u
    case SaveDied(_) => Reborn(u)
  }

  function Refreshed(w: World, acceptCurrent: bool, read: Fate, saving: Saving): (u: World)
    requires NamesOk(w.names)
    ensures u.names == w.names
  {
    match read
    case Died => Reborn(w)
    case Raised => w
    case Fine =>
      var t := w.(snapshot := Some(w.names));
      if w.pending.Some? && (acceptCurrent || Known(w.pending.value, w.names)) then Cleared(t, saving) else t
  }

  /** How many frames leave once the journal is durable: the second only after the first was acknowledged. */
  function Leaving(env: WriteEnv): nat {
    if !env.preflight.Fine? then 0 else if env.deliveries.0.reply.Acked? then 2 else 1
  }

  /** Once the journal is durable: written, verified, cleared. */
  function Written(u: World, ws: seq<Frame>, expected: Names, env: UpdateEnv): (v: World)
    requires NamesOk(u.names) && |ws| == 2 && |ws[0]| == 20 && |ws[1]| == 20
    ensures NamesOk(v.names)
  {
    var n := Leaving(env.write);
    var v := u.(names := Delivered(u.names, ws, env.write.deliveries, n), received := u.received + ws[..n]);
    if DiesWriting(n, v.names, expected, env.write) then Reborn(v)
    else if Succeeds(env.write) && v.names == expected then Cleared(v.(snapshot := Some(v.names)), env.done)
    else v
  }

  /** From the journal on: saved, written, verified, cleared. */
  function Transacted(w: World, ws: seq<Frame>, expected: Names, env: UpdateEnv): (v: World)
    requires NamesOk(w.names) && NamesOk(expected) && |ws| == 2 && |ws[0]| == 20 && |ws[1]| == 20
    ensures NamesOk(v.names)
  {
    var journal := Some(NameJournal(NameRevision(w.names), NameRevision(expected), w.names, expected));
    var u := w.(pending := journal, disk := if IsDurable(env.journal) then journal else w.disk);
    match env.journal
    case SaveDied(_) => Reborn(u)
    case SaveRaised(_) => u
    case Saved => Written(u, ws, expected, env)
  }

  function Updated(w: World, station: int, name: Frame, revision: Frame, physical: int, env: UpdateEnv): (u: World)
    requires NamesOk(w.names)
    ensures NamesOk(u.names)
  {
    if !Nameable(station, name, physical) || w.pending.Some? || !env.admitted then w
    else
      match env.read
      case Died => Reborn(w)
      case Raised => w
      case Fine =>
        var t := w.(snapshot := Some(w.names));
        if NameRevision(w.names) != revision || (station in w.names && Shown(w.names[station]) == name) then t
        else Transacted(t, PackStationName(station, name, physical).value, w.names[station := Pad(name, 32)], env)
  }

  // ---- the manager -------------------------------------------------------------------------------

  class StationNameManager {
    var pending: Option<NameJournal>
    var snapshot: Option<Names>
    var disk: Option<NameJournal>

    /** The history since names were last accepted as they are. */
    ghost var initial: Names
    ghost var requested: seq<Rename>
    ghost var fates: seq<bool>

    /** With no durable journal, every rename so far is wholly applied or wholly absent on the controller;
        with one, it describes the single undecided rename, and the controller is at most half-way through it. */
    ghost predicate Inv(d: NameDevice)
      reads this, d
    {
      && NamesOk(d.names) && |fates| <= |requested| && NamesOk(Settled(initial, requested, fates))
      && (pending.None? ==> disk.None?)
      && (pending.Some? && disk.Some? ==> pending == disk)
      && (disk.None? ==> |fates| == |requested| && d.names == Settled(initial, requested, fates))
      && (disk.Some? ==>
            |fates| + 1 == |requested|
            && Undecided(Settled(initial, requested, fates), requested[|fates|], disk.value, d.names))
    }

    ghost function With(d: NameDevice): World
      reads this, d
    {
      World(pending, snapshot, disk, d.names, d.received)
    }

    constructor (d: NameDevice)
      requires NamesOk(d.names)
      ensures Inv(d) && pending == None && disk == None && initial == d.names && requested == []
    {
      pending, snapshot, disk := None, None, None;
      initial, requested, fates := d.names, [], [];
    }

    /** `async_load`, in the process that follows a crash or a restart. */
    method Load(d: NameDevice)
      requires NamesOk(d.names) && |fates| <= |requested| && NamesOk(Settled(initial, requested, fates))
      requires disk.None? ==> |fates| == |requested| && d.names == Settled(initial, requested, fates)
      requires disk.Some? ==> |fates| + 1 == |requested|
      requires disk.Some? ==> Undecided(Settled(initial, requested, fates), requested[|fates|], disk.value, d.names)
      modifies this`pending, this`snapshot
      ensures Inv(d) && pending == disk && With(d) == Reborn(old(With(d)))
    {
      pending, snapshot := disk, None;
    }

    /** `refresh`: the journal goes when the controller is in a known state, or when the user accepts it. */
    method Refresh(d: NameDevice, acceptCurrent: bool, read: Fate, saving: Saving) returns (outcome: Outcome)
      requires Inv(d)
      modifies this
      ensures Inv(d) && (!acceptCurrent ==> initial == old(initial) && requested == old(requested) && old(fates) <= fates)
      ensures disk != old(disk) ==> old(disk).Some? && disk.None?
      ensures disk != old(disk) && !acceptCurrent ==>
                NameRevision(d.names) in {old(disk).value.beforeRevision, old(disk).value.expectedRevision}
      ensures read.Fine? && old(pending).Some? && !Known(old(pending).value, d.names) && !acceptCurrent ==>
                pending == old(pending) && disk == old(disk) && outcome.Verified?
      ensures read.Fine? && old(pending).Some? && (Known(old(pending).value, d.names) || acceptCurrent) && saving.Saved? ==>
                pending == None && disk == None && outcome.Verified?
      ensures outcome.Verified? ==> snapshot == Some(d.names)
      ensures outcome.Crashed? <==>
                read.Died? || (read.Fine? && saving.SaveDied? && old(pending).Some?
                               && (acceptCurrent || Known(old(pending).value, d.names)))
      ensures outcome.Verified? <==>
                read.Fine? && (saving.Saved? || old(pending).None? || !(acceptCurrent || Known(old(pending).value, d.names)))
      ensures With(d) == Refreshed(old(With(d)), acceptCurrent, read, saving)
    {
      hide Undecided, Settled, NameRevision, HalfWay;
      if !read.Fine? {
        if read.Died? { Load(d); }
        return Interrupted(read);
      }
      snapshot := Some(d.names);
      outcome := Verified;
      if pending.Some? && (acceptCurrent || Known(pending.value, d.names)) {
        var journal := pending;
        pending := None;
        if IsDurable(saving) {
          ghost var known := disk.Some? && Known(disk.value, d.names);
          if known {
            Decide(d, disk.value);
          } else if disk.Some? {
            initial, requested, fates := d.names, [], [];
            NothingSettled(d.names);
          }
          disk := None;
        }
        if saving.SaveRaised? { pending := journal; outcome := Failed; }
        if saving.SaveDied? { Load(d); outcome := Crashed; }
      }
    }

    /** A controller in the journal's before or expected state settles the pending rename. */
    ghost method Decide(d: NameDevice, journal: NameJournal)
      requires NamesOk(d.names) && |fates| + 1 == |requested| && NamesOk(Settled(initial, requested, fates))
      requires Undecided(Settled(initial, requested, fates), requested[|fates|], journal, d.names)
      requires NameRevision(d.names) in {journal.beforeRevision, journal.expectedRevision}
      modifies this`fates
      ensures old(fates) <= fates && |fates| == |requested| && d.names == Settled(initial, requested, fates)
    {
      hide HalfWay, NameRevision;
      var s, r := Settled(initial, requested, fates), requested[|fates|];
      UndecidedOk(s, r, journal, d.names);
      var after := s[r.station := r.raw];
      NameRevisionIdentifies(d.names, s);
      NameRevisionIdentifies(d.names, after);
      var decided := fates + [d.names == after];
      assert decided[..|fates|] == fates;
      fates := decided;
    }

    /** `update`: journal, write once, verify, clear. Nothing is sent while a journal is pending, in memory or
        on disk, and nothing is sent before the journal of this very rename is durable. */
    method Update(d: NameDevice, station: int, name: Frame, revision: Frame, physical: int, env: UpdateEnv)
      returns (outcome: Outcome, ghost n: nat)
      requires Inv(d)
      modifies this, d
      ensures Inv(d)
      ensures old(pending).Some? ==> n == 0
      ensures n > 0 ==> old(disk).None? && Nameable(station, name, physical) && env.journal.Saved?
      ensures n <= 2 && (Nameable(station, name, physical) ==>
                           d.received == old(d.received) + PackStationName(station, name, physical).value[..n])
      ensures n == 0 ==> d.received == old(d.received) && d.names == old(d.names)
      ensures n > 0 && !outcome.Verified? && disk.None? ==> |name| <= 32 && d.names == old(d.names)[station := Pad(name, 32)]
      ensures outcome.Verified? ==> station in d.names && Shown(d.names[station]) == name && disk.None?
      ensures outcome.Verified? ==> d.names == old(d.names)[station := d.names[station]]
      ensures (&& Nameable(station, name, physical) && station in old(d.names) && old(pending).None? && env.admitted
               && env.read.Fine? && NameRevision(old(d.names)) == revision && GoesWell(env)) ==> outcome.Verified?
      ensures outcome.Verified? <==>
                Nameable(station, name, physical) && old(pending).None? && env.admitted && env.read.Fine?
                && NameRevision(old(d.names)) == revision
                && ((station in old(d.names) && Shown(old(d.names)[station]) == name)
                    || (env.journal.Saved? && Succeeds(env.write) && env.done.Saved?
                        && d.names == old(d.names)[station := Pad(name, 32)]))
      ensures outcome.Crashed? <==>
                Nameable(station, name, physical) && old(pending).None? && env.admitted
                && (env.read.Died?
                    || (env.read.Fine? && NameRevision(old(d.names)) == revision
                        && !(station in old(d.names) && Shown(old(d.names)[station]) == name)
                        && |name| <= 32
                        && DiesUpdating(n, d.names, old(d.names)[station := Pad(name, 32)], env)))
      ensures With(d) == Updated(old(With(d)), station, name, revision, physical, env)
      ensures initial == old(initial) && old(fates) <= fates
      ensures requested == old(requested)
              || (Requested(station, name, physical).Some?
                  && requested == old(requested) + [Requested(station, name, physical).value])
    {
      hide Undecided, Settled, NameRevision, HalfWay, Nameable, PackStationName, Renamed;
      n := 0;
      var frames := PackStationName(station, name, physical);
      if frames.Err? || pending.Some? || !env.admitted {
        return Failed, 0;
      }
      assert frames.value[..0] == [];
      if !env.read.Fine? {
        if env.read.Died? { Load(d); }
        return Interrupted(env.read), 0;
      }
      var before := d.names;
      snapshot := Some(before);
      if NameRevision(before) != revision {
        return Failed, 0;
      }
      if station in before && Shown(before[station]) == name {
        assert before == before[station := before[station]];
        return Verified, 0;
      }
      var expected := Renamed(before, station, name, physical).value;
      outcome, n := Transact(d, station, name, physical, frames.value, before, expected, env);
    }

    method Transact(d: NameDevice, station: int, name: Frame, physical: int, ws: seq<Frame>, before: Names,
                    expected: Names, env: UpdateEnv) returns (outcome: Outcome, ghost n: nat)
      requires Inv(d) && pending.None? && before == d.names && Nameable(station, name, physical)
      requires PackStationName(station, name, physical) == Ok(ws) && Renamed(before, station, name, physical) == Ok(expected)
      modifies this, d
      ensures Inv(d) && n <= 2 && d.received == old(d.received) + ws[..n]
      ensures n == 0 ==> d.names == old(d.names)
      ensures n > 0 ==> env.journal.Saved?
      ensures n > 0 && !outcome.Verified? && disk.None? ==> d.names == expected
      ensures outcome.Verified? ==> disk.None? && station in expected && Shown(expected[station]) == name
      ensures outcome.Verified? <==> env.journal.Saved? && Succeeds(env.write) && env.done.Saved? && d.names == expected
      ensures |name| <= 32 && expected == before[station := Pad(name, 32)]
      ensures station in before && GoesWell(env) ==> outcome.Verified?
      ensures NamesOk(expected) && (outcome.Crashed? <==> DiesUpdating(n, d.names, expected, env))
      ensures |ws| == 2 && |ws[0]| == 20 && |ws[1]| == 20 && With(d) == Transacted(old(With(d)), ws, expected, env)
      ensures initial == old(initial) && old(fates) <= fates
      ensures requested == old(requested) || requested == old(requested) + [Rename(station, Pad(name, 32))]
    {
      hide Undecided, Settled, NameRevision, HalfWay, Nameable, PackStationName, Renamed, DiesWriting, Delivered, Written;
      RenameFacts(before, station, name, physical, ws, expected);
      BothHalves(before, station, name, physical, ws, env);
      ghost var r := Rename(station, Pad(name, 32));
      n := 0;
      pending := Some(NameJournal(NameRevision(before), NameRevision(expected), before, expected));
      var journal := pending;
      if IsDurable(env.journal) {
        SettledMore(initial, requested, fates, r);
        JournalUndecided(before, r, expected, journal.value);
        requested := requested + [r];
        disk := pending;
      }
      if env.journal.SaveDied? { Load(d); return Crashed, 0; }
      if env.journal.SaveRaised? { return Failed, 0; }
      outcome, n := Write(d, ws, before, expected, env, r);
    }

    /** The part of `update` after the journal is durable. */
    method Write(d: NameDevice, ws: seq<Frame>, before: Names, expected: Names, env: UpdateEnv, ghost r: Rename)
      returns (outcome: Outcome, ghost n: nat)
      requires Inv(d) && before == d.names && NamesOk(expected)
      requires pending == disk == Some(NameJournal(NameRevision(before), NameRevision(expected), before, expected))
      requires before == Settled(initial, requested, fates) && requested[|fates|] == r
      requires |ws| == 2 && |ws[0]| == 20 && |ws[1]| == 20
      requires forall k :: 0 <= k < 2 ==>
                 (ws[k][2] == k && ws[k][3] as int + 1 == r.station
                  && ws[k][4..] == if k == 0 then r.raw[..16] else r.raw[16..])
      modifies this, d
      ensures Inv(d) && n == Leaving(env.write) && d.received == old(d.received) + ws[..n]
      ensures d.names == Delivered(before, ws, env.write.deliveries, n)
      ensures With(d) == Written(old(With(d)), ws, expected, env)
      ensures outcome.Verified? <==> Succeeds(env.write) && env.done.Saved? && d.names == expected
      ensures outcome.Crashed? <==>
                DiesWriting(n, d.names, expected, env.write)
                || (Succeeds(env.write) && d.names == expected && env.done.SaveDied?)
      ensures disk.None? ==> d.names == expected && Succeeds(env.write)
      ensures (outcome.Verified? ==> disk.None?) && (n == 0 ==> d.names == before)
      ensures initial == old(initial) && requested == old(requested) && old(fates) <= fates
    {
      hide Undecided, Settled, NameRevision, HalfWay, DiesWriting, StoreHalf;
      var journal := disk.value;
      UndecidedOk(before, r, journal, d.names);
      outcome, n := WriteStationName(d, ws, before, expected, env.write, r);
      HalfWayOk(before, r, d.names);
      StillUndecided(before, r, journal, d.names);
      if outcome.Crashed? { Load(d); return; }
      if outcome.Failed? { return; }
      outcome := ClearJournal(d, env.done);
    }

    /** The end of `update`: the verified rename is recorded, unless the save fails. */
    method ClearJournal(d: NameDevice, saving: Saving) returns (outcome: Outcome)
      requires Inv(d) && disk.Some? && pending == disk
      requires NameRevision(d.names) == disk.value.expectedRevision
      modifies this
      ensures Inv(d) && initial == old(initial) && requested == old(requested) && old(fates) <= fates
      ensures outcome.Verified? <==> saving.Saved?
      ensures outcome.Crashed? <==> saving.SaveDied?
      ensures With(d) == Cleared(old(With(d)).(snapshot := Some(d.names)), saving)
      ensures disk == if IsDurable(saving) then None else old(disk)
    {
      hide Undecided, Settled, NameRevision, HalfWay;
      var journal := pending;
      snapshot, pending := Some(d.names), None;
      if IsDurable(saving) {
        Decide(d, journal.value);
        disk := None;
      }
      outcome := Verified;
      if saving.SaveRaised? { pending := journal; outcome := Failed; }
      if saving.SaveDied? { Load(d); outcome := Crashed; }
    }
  }

  /** The controller is in one of the two states the journal records. */
  predicate Known(journal: NameJournal, now: Names)
    requires NamesOk(now)
  {
    NameRevision(now) in {journal.beforeRevision, journal.expectedRevision}
  }

  /** `journal` describes the rename `r` of `s`, and the controller is half-way through it. */
  ghost predicate Undecided(s: Names, r: Rename, journal: NameJournal, now: Names)
    requires NamesOk(s)
  {
    && HalfWay(s, r, now) && NamesOk(s[r.station := r.raw])
    && journal.beforeRevision == NameRevision(s) && journal.expectedRevision == NameRevision(s[r.station := r.raw])
  }

  lemma UndecidedOk(s: Names, r: Rename, journal: NameJournal, now: Names)
    requires NamesOk(s) && Undecided(s, r, journal, now)
    ensures HalfWay(s, r, now) && NamesOk(s[r.station := r.raw])
    ensures journal.beforeRevision == NameRevision(s) && journal.expectedRevision == NameRevision(s[r.station := r.raw])
  {
  }

  lemma StillUndecided(s: Names, r: Rename, journal: NameJournal, now: Names)
    requires NamesOk(s) && HalfWay(s, r, now) && NamesOk(s[r.station := r.raw])
    requires journal.beforeRevision == NameRevision(s) && journal.expectedRevision == NameRevision(s[r.station := r.raw])
    ensures Undecided(s, r, journal, now)
  {
  }

  lemma JournalUndecided(before: Names, r: Rename, expected: Names, journal: NameJournal)
    requires NamesOk(before) && |r.raw| == 32 && 1 <= r.station <= 12 && expected == before[r.station := r.raw] && NamesOk(expected)
    requires journal == NameJournal(NameRevision(before), NameRevision(expected), before, expected)
    ensures Undecided(before, r, journal, before)
  {
  }

  lemma NothingSettled(names: Names)
    ensures Settled(names, [], []) == names
  {
  }

  /** Both halves make the new name. */
  lemma BothHalves(before: Names, station: int, name: Frame, physical: int, ws: seq<Frame>, env: UpdateEnv)
    requires NamesOk(before) && Nameable(station, name, physical) && PackStationName(station, name, physical) == Ok(ws)
    ensures |ws| == 2 && |ws[0]| == 20 && |ws[1]| == 20
    ensures station in before && GoesWell(env) ==>
              Ok(Delivered(before, ws, env.write.deliveries, Leaving(env.write))) == Renamed(before, station, name, physical)
  {
    hide StoreHalf, Renamed, Nameable;
    if station in before { WriteRenames(before, station, name, physical); }
  }

  lemma RenameFacts(before: Names, station: int, name: Frame, physical: int, ws: seq<Frame>, expected: Names)
    requires NamesOk(before) && Nameable(station, name, physical)
    requires PackStationName(station, name, physical) == Ok(ws) && Renamed(before, station, name, physical) == Ok(expected)
    ensures 1 <= station <= 12 && |name| <= 32 && expected == before[station := Pad(name, 32)] && NamesOk(expected)
    ensures station in expected && Shown(expected[station]) == name
    ensures |ws| == 2 && |ws[0]| == 20 && |ws[1]| == 20
    ensures forall k :: 0 <= k < 2 ==>
              (ws[k][2] == k && ws[k][3] as int + 1 == station
               && ws[k][4..] == if k == 0 then Pad(name, 32)[..16] else Pad(name, 32)[16..])
  {
    CutNulPad(name, 32);
    var padded := Pad(name, 32);
    assert padded == padded[..16] + padded[16..];
    assert ws[0][4..] == padded[..16] && ws[1][4..] == padded[16..];
  }

  // ---- whole runs --------------------------------------------------------------------------------------

  datatype Op =
    | DoUpdate(station: int, name: Frame, revision: Frame, physical: int, env: UpdateEnv)
    | DoRefresh(read: Fate, saving: Saving)
    | Restart

  function Next(w: World, op: Op): (u: World)
    requires NamesOk(w.names)
    ensures NamesOk(u.names)
  {
    match op
    case DoUpdate(station, name, revision, physical, env) => Updated(w, station, name, revision, physical, env)
    case DoRefresh(read, saving) => Refreshed(w, false, read, saving)
    case Restart => Reborn(w)
  }

  function After(w: World, ops: seq<Op>): (u: World)
    requires NamesOk(w.names)
    ensures NamesOk(u.names)
  {
    if ops == [] then w else Next(After(w, ops[..|ops| - 1]), ops[|ops| - 1])
  }

  /** The rename an update asks for, if it is one that can be sent. */
  function Requested(station: int, name: Frame, physical: int): Option<Rename> {
    if Nameable(station, name, physical) then Some(Rename(station, Pad(name, 32))) else None
  }

  predicate Asks(op: Op, r: Rename) {
    op.DoUpdate? && Requested(op.station, op.name, op.physical) == Some(r)
  }

  /** The renames are, in order, those of some of the updates. */
  predicate From(renames: seq<Rename>, ops: seq<Op>) {
    if renames == [] then true
    else if ops == [] then false
    else
      var m, n := |renames| - 1, |ops| - 1;
      From(renames, ops[..n]) || (Asks(ops[n], renames[m]) && From(renames[..m], ops[..n]))
  }

  lemma OneMoreOp(renames: seq<Rename>, more: seq<Rename>, ops: seq<Op>, k: nat)
    requires k < |ops| && From(renames, ops[..k])
    requires more == renames || (more != [] && more[..|more| - 1] == renames && Asks(ops[k], more[|more| - 1]))
    ensures From(more, ops[..k + 1])
  {
    assert ops[..k + 1][..k] == ops[..k];
  }

  /** One operation; it journals at most the rename it asks for. */
  method Take(m: StationNameManager, d: NameDevice, op: Op)
    requires m.Inv(d)
    modifies m, d
    ensures NamesOk(old(d.names)) && m.Inv(d) && m.With(d) == Next(old(m.With(d)), op)
    ensures m.initial == old(m.initial) && old(m.fates) <= m.fates
    ensures m.requested == old(m.requested)
            || exists r :: Asks(op, r) && m.requested == old(m.requested) + [r]
  {
    hide Undecided, Settled, NameRevision, HalfWay, Nameable, Updated, Refreshed, Reborn;
    match op {
      case DoUpdate(station, name, revision, physical, env) =>
        var _, _ := m.Update(d, station, name, revision, physical, env);
        AsksRequested(op);
      case DoRefresh(read, saving) => var _ := m.Refresh(d, false, read, saving);
      case Restart => m.Load(d);
    }
  }

  /** Any run of updates, refreshes, failures, cancellations and crashes, without an explicit accept and
      without another writer: manager, journal and device are where the operations lead; the renames journaled are,
      in order, those of some of the updates; and whenever the durable journal is empty, the controller holds the last
      settled names of the start (its names then, if no journal was pending) with every rename since wholly applied or
      wholly absent. */
  method Run(m: StationNameManager, d: NameDevice, ops: seq<Op>)
    requires m.Inv(d)
    modifies m, d
    ensures m.Inv(d) && old(m.requested) <= m.requested && old(m.fates) <= m.fates
    ensures NamesOk(old(d.names)) && m.With(d) == After(old(m.With(d)), ops)
    ensures From(m.requested[|old(m.requested)|..], ops)
    ensures m.disk.None? ==>
              |m.fates| == |m.requested|
              && d.names == Settled(old(Settled(m.initial, m.requested, m.fates)),
                                    m.requested[|old(m.fates)|..], m.fates[|old(m.fates)|..])
    ensures old(m.disk).None? ==> old(Settled(m.initial, m.requested, m.fates)) == old(d.names)
  {
    hide Undecided, Settled, NameRevision, HalfWay, Asks, Nameable, From, Next;
    ghost var world := m.With(d);
    assert ops[..0] == [];
    ghost var start, k0, f0 := m.initial, |m.requested|, |m.fates|;
    ghost var requested0, fates0 := m.requested, m.fates;
    FromNothing(ops);
    assert m.requested[k0..] == [];
    for k := 0 to |ops|
      invariant m.Inv(d) && m.initial == start && requested0 <= m.requested && fates0 <= m.fates
      invariant From(m.requested[k0..], ops[..k]) && m.With(d) == After(world, ops[..k])
    {
      assert ops[..k + 1][..k] == ops[..k];
      ghost var renames := m.requested[k0..];
      Take(m, d, ops[k]);
      ghost var more := m.requested[k0..];
      assert more == renames || (more != [] && more[..|more| - 1] == renames);
      OneMoreOp(renames, more, ops, k);
    }
    assert ops[..|ops|] == ops;
    SettledSplit(start, m.requested, m.fates, f0);
    SettledPrefix(start, requested0, fates0, f0);
    assert m.requested[..f0] == requested0[..f0] && m.fates[..f0] == fates0;
  }

  lemma FromNothing(ops: seq<Op>)
    ensures From([], ops[..0])
  {
  }

  lemma AsksRequested(op: Op)
    requires op.DoUpdate?
    ensures Requested(op.station, op.name, op.physical).Some? ==>
              Asks(op, Requested(op.station, op.name, op.physical).value)
  {
  }
}
