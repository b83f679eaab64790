/** What an observation makes of the state, said without the observer: which runs it closes, which it begins, and to whom
    a run that begins is put down. */
module Attribution {
  import opened Options
  import opened Protocol
  import opened Schedule
  import opened Activity

  // ---- what there is to go by ---------------------------------------------------------------

  /** The previous observation is at most a minute old, or at most two polls and half a minute. */
  predicate Watched(m: Memory, now: Instant, pollInterval: int) {
    m.lastSeen.Some? && m.lastSeen.value <= now
    && (now <= m.lastSeen.value + MINUTE || now <= m.lastSeen.value + MINUTE / 2 + 2 * pollInterval * 1_000_000)
  }

  predicate NoProgram(status: Status) {
    status.activeProgram.None? || status.activeProgram.value == 0
  }

  predicate Busy(status: Status) {
    status.isWatering || !NoProgram(status)
  }

  /** The command is at most five minutes old. */
  predicate Fresh(i: Intent, now: Instant) {
    i.at.Some? && i.at.value <= now <= i.at.value + 5 * MINUTE
  }

  /** It asked for the program that runs, or, when it named none and none runs, for the station. */
  predicate AskedFor(i: Intent, status: Status) {
    if i.program.Some? && i.program.value != 0 then status.activeProgram == i.program
    else NoProgram(status) && status.stationNum == i.station
  }

  /** The pending command is what the controller does now. */
  predicate Explained(pending: Option<Intent>, status: Status, now: Instant) {
    pending.Some? && Fresh(pending.value, now) && AskedFor(pending.value, status)
  }

  /** No command of ours can be behind a run it does not explain: there is none, or it is too old and nothing was missed
      since the previous observation. */
  predicate Unasked(pending: Option<Intent>, m: Memory, now: Instant, pollInterval: int) {
    pending.None? || (Watched(m, now, pollInterval) && !Fresh(pending.value, now))
  }

  /** The program that runs is known, from a configuration read in the last two hours and the same ever since; the clock
      is not in doubt, no restore is pending, and an interval program has a phase within its period. */
  predicate Trusted(e: Evidence, m: Memory, status: Status, now: Instant) {
    && !NoProgram(status) && status.activeProgram.value - 1 in e.programs
    && !status.timeAlarm && !e.restorePending && m.lastRevision == e.revision
    && e.lastRead.Some? && e.lastRead.value <= now <= e.lastRead.value + 120 * MINUTE
    && var p := e.programs[status.activeProgram.value - 1];
       p.cycle == 4 ==> 0 <= p.synchroDay < p.periodLength
  }

  /** The starts of a program, an interval program placed by its countdown at `from`. */
  ghost function StartsOf(p: Program, from: int): iset<int> {
    if p.cycle == 4 then GridStarts(Enabled(p.startTimes), DayOf(from) + p.synchroDay, p.periodLength)
    else CalendarStarts(Timetable(startTimes := p.startTimes, cycle := p.cycle, weekDays := p.weekDays,
                                  periodLength := p.periodLength, synchroDay := p.synchroDay))
  }

  // ---- a run found after a gap ------------------------------------------------------------------

  predicate FirstStation(durations: seq<int>, k: nat) {
    k < |durations| && durations[k] > 0 && forall j :: 0 <= j < k ==> durations[j] <= 0
  }

  /** The run is on station `k`, the first of the program, which waters for `d` under the budget; it was idle at most ten
      minutes ago, and the configuration is older than that. Hence it began after `after` and not after `until`: the
      minutes it shows are rounded down, half a minute is granted either way. */
  predicate Traced(p: Program, e: Evidence, m: Memory, status: Status, now: Instant, k: nat, d: int, after: int, until: int) {
    && !m.lastActive && m.lastSeen.Some? && m.lastSeen.value <= now <= m.lastSeen.value + 10 * MINUTE
    && e.lastRead.Some? && e.lastRead.value <= m.lastSeen.value && p.interStationDelay == 0
    && FirstStation(p.durations, k) && status.isWatering && status.stationNum == Some(k + 1) && status.remainingSeconds.Some?
    && 100 * d == p.durations[k] * p.waterBudget * 1_000_000
    && var left := status.remainingSeconds.value * 1_000_000;
    && 0 < left <= d
    && m.lastSeen.value <= after && now - (d - left) - MINUTE / 2 <= after
    && (after == m.lastSeen.value || after == now - (d - left) - MINUTE / 2)
    && until == now + MINUTE / 2 - (if d - d % MINUTE > left then d - d % MINUTE - left else 0)
  }

  /** The two starts of an interval program that the searches take for one. */
  predicate MidnightPair(p: Program, after: int, until: int) {
    p.cycle == 4 && p.synchroDay == 1 && Some(0) in p.startTimes && Some(1) in p.startTimes
    && (1440 * (DayOf(after) + 1) + 1) * MINUTE <= until
  }

  /** One and only one start can have been the one, or the searches take two for one. */
  ghost predicate FoundOnce(p: Program, e: Evidence, m: Memory, status: Status, now: Instant) {
    exists k, d, after, until :: Traced(p, e, m, status, now, k, d, after, until)
                                 && (OneStartIn(StartsOf(p, after), after, until) || MidnightPair(p, after, until))
  }

  // ---- to whom a run is put down ----------------------------------------------------------------

  /** A start of the program lies between the previous observation and this one, half a minute either way. */
  ghost predicate SeenToStart(p: Program, m: Memory, now: Instant)
    requires m.lastSeen.Some?
  {
    var after := m.lastSeen.value - MINUTE / 2;
    StartIn(StartsOf(p, after), after, now + MINUTE / 2)
  }

  /** What may be said of a run that begins, by what the observer remembers, its evidence and the pending command. */
  ghost function Attributed(e: Evidence, m: Memory, status: Status, now: Instant, pending: Option<Intent>): Source {
    if Explained(pending, status, now) then
      if pending.value.confirmed || status.manualOrigin then HomeAssistant else Unknown
    else if !Unasked(pending, m, now, e.pollInterval) then Unknown
    else if NoProgram(status) then
      if Watched(m, now, e.pollInterval) && status.manualOrigin then Bluetooth else Unknown
    else if m.lastSeen.None? || !Trusted(e, m, status, now) then Unknown
    else
      var p := e.programs[status.activeProgram.value - 1];
      if Watched(m, now, e.pollInterval) then (if SeenToStart(p, m, now) then Scheduled else Bluetooth)
      else if FoundOnce(p, e, m, status, now) then Scheduled
      else Unknown
  }

  lemma WatchedIs(m: Memory, now: Instant, pollInterval: int)
    ensures Continuous(m, now, pollInterval) <==> Watched(m, now, pollInterval)
    ensures Watched(m, now, pollInterval) ==> m.lastSeen.Some?
  {
  }

  lemma TrustedIs(e: Evidence, m: Memory, status: Status, now: Instant)
    ensures Usable(e, m, status, now) <==> Trusted(e, m, status, now)
  {
  }

  /** The pending command as the observation leaves it, and as it takes it. */
  lemma TakenIs(pending: Option<Intent>, status: Status, now: Instant)
    requires Busy(status)
    ensures Active(status)
    ensures TakeIntent(pending, status, now).1 == if Explained(pending, status, now) then pending else None
    ensures TakeIntent(pending, status, now).0
            == if pending.Some? && Fresh(pending.value, now) && !Explained(pending, status, now) then pending else None
  {
  }

  lemma {:induction false} FirstIs(durations: seq<int>, k: nat)
    ensures FirstActive(durations) == Some(k) <==> FirstStation(durations, k)
  {
    if durations != [] && durations[0] <= 0 && k > 0 {
      FirstIs(durations[1..], k - 1);
      assert forall j :: 1 <= j < |durations| ==> durations[j] == durations[1..][j - 1];
      assert FirstStation(durations, k) ==> FirstStation(durations[1..], k - 1);
      assert FirstStation(durations[1..], k - 1) ==> FirstStation(durations, k) by {
        if FirstStation(durations[1..], k - 1) {
          forall j | 1 <= j < k
            ensures durations[j] <= 0
          {
            assert durations[1..][j - 1] <= 0;
          }
        }
      }
    }
  }

  /** A run can be traced back exactly when the searches look at it, and the window is theirs. */
  lemma TracedIs(p: Program, e: Evidence, m: Memory, status: Status, now: Instant, k: nat, d: int, after: int, until: int)
    requires Traced(p, e, m, status, now, k, d, after, until)
    ensures Traceable(p, e, m, status, now) && Some(k) == FirstActive(p.durations) && d == Budgeted(p, k)
    ensures after == Earliest(p, e, m, status, now) && until == Latest(p, e, m, status, now)
  {
    hide FirstActive, FirstStation;
    FirstIs(p.durations, k);
    StationIn(p.durations, k);
    assert d == Budgeted(p, k);
    WholeMinutes(d);
  }

  lemma TraceableIs(p: Program, e: Evidence, m: Memory, status: Status, now: Instant) returns (k: nat, d: int)
    requires Traceable(p, e, m, status, now)
    ensures Traced(p, e, m, status, now, k, d, Earliest(p, e, m, status, now), Latest(p, e, m, status, now))
  {
    hide FirstActive, FirstStation;
    k := FirstActive(p.durations).value;
    d := Budgeted(p, k);
    FirstIs(p.durations, k);
    WholeMinutes(d);
  }

  lemma StationIn(durations: seq<int>, k: nat)
    requires FirstStation(durations, k)
    ensures k < |durations|
  {
  }

  lemma WholeMinutes(d: int)
    ensures d - d % MINUTE == d / (60 * SECOND) * (60 * SECOND)
  {
  }

  lemma StartsIs(p: Program, from: int)
    ensures StartsOf(p, from) == if p.cycle == 4 then GridAt(TimetableOf(p), from) else CalendarStarts(TimetableOf(p))
  {
  }

  lemma MidnightIs(p: Program, after: Instant, until: int)
    ensures MidnightPair(p, after, until) <==> p.cycle == 4 && MissesMinute(TimetableOf(p), after, until)
  {
  }

  /** A traceable run is judged by its window. */
  lemma GapJudged(p: Program, e: Evidence, m: Memory, status: Status, now: Instant)
    requires ValidSlots(p.startTimes) && Usable(e, m, status, now) && m.lastSeen.Some?
    requires p == e.programs[status.activeProgram.value - 1] && Traceable(p, e, m, status, now)
    ensures var after, until := Earliest(p, e, m, status, now), Latest(p, e, m, status, now);
            Classify(e, m, status, now, false, None)
            == if OneStartIn(StartsOf(p, after), after, until) || MidnightPair(p, after, until) then Scheduled else Unknown
  {
    hide Traceable, Earliest, Latest, OneStartIn, GridAt, StartsOf, Classify, MissesMinute, MidnightPair, CalendarStarts;
    var after, until := Earliest(p, e, m, status, now), Latest(p, e, m, status, now);
    StartsIs(p, after);
    MidnightIs(p, after, until);
    if p.cycle == 4 {
      GapInterval(e, m, status, now);
    } else {
      GapAttribution(e, m, status, now);
    }
  }

  lemma Untraceable(e: Evidence, m: Memory, status: Status, now: Instant)
    requires Usable(e, m, status, now) && m.lastSeen.Some?
    requires !Traceable(e.programs[status.activeProgram.value - 1], e, m, status, now)
    ensures Classify(e, m, status, now, false, None).Unknown?
  {
    hide Traceable;
  }

  lemma FoundIs(p: Program, e: Evidence, m: Memory, status: Status, now: Instant)
    requires ValidSlots(p.startTimes) && Usable(e, m, status, now) && m.lastSeen.Some?
    requires p == e.programs[status.activeProgram.value - 1]
    ensures Classify(e, m, status, now, false, None) == if FoundOnce(p, e, m, status, now) then Scheduled else Unknown
  {
    hide Traced, Traceable, Earliest, Latest, OneStartIn, GridAt, StartsOf, Classify, MidnightPair;
    if Traceable(p, e, m, status, now) {
      var after, until := Earliest(p, e, m, status, now), Latest(p, e, m, status, now);
      var _, _ := TraceableIs(p, e, m, status, now);
      GapJudged(p, e, m, status, now);
      forall k': nat, d', after', until' | Traced(p, e, m, status, now, k', d', after', until')
        ensures after' == after && until' == until
      {
        TracedIs(p, e, m, status, now, k', d', after', until');
      }
    } else {
      forall k: nat, d, after, until | Traced(p, e, m, status, now, k, d, after, until)
        ensures false
      {
        TracedIs(p, e, m, status, now, k, d, after, until);
      }
      Untraceable(e, m, status, now);
    }
  }

  lemma SeenIs(p: Program, e: Evidence, m: Memory, status: Status, now: Instant)
    requires ValidSlots(p.startTimes) && Usable(e, m, status, now) && m.lastSeen.Some?
    requires p == e.programs[status.activeProgram.value - 1]
    ensures Classify(e, m, status, now, true, None) == if SeenToStart(p, m, now) then Scheduled else Bluetooth
  {
    hide StartIn, GridAt, StartsOf, Classify, CalendarStarts;
    StartsIs(p, m.lastSeen.value - MINUTE / 2);
    if p.cycle == 4 {
      ContinuousInterval(e, m, status, now);
    } else {
      ContinuousAttribution(e, m, status, now);
    }
  }

  /** The observer says of a run that begins what may be said of it, and nothing else. */
  lemma SourceIsAttributed(e: Evidence, m: Memory, status: Status, now: Instant, pending: Option<Intent>)
    requires Busy(status) && forall i :: i in e.programs ==> ValidSlots(e.programs[i].startTimes)
    ensures NewSource(e, m, status, now, pending) == Attributed(e, m, status, now, pending)
  {
    hide Usable, FoundOnce, SeenToStart, TakeIntent, Continuous, Watched, Explained, Fresh, ValidSlots;
    WatchedIs(m, now, e.pollInterval);
    TakenIs(pending, status, now);
    TrustedIs(e, m, status, now);
    var continuous, taken := Continuous(m, now, e.pollInterval), TakeIntent(pending, status, now);
    ExplainedAsked(pending, status, now);
    if m.lastSeen.Some? && Usable(e, m, status, now) {
      var p := ProgramOf(e, m, status, now);
      hide Trusted;
      FoundIs(p, e, m, status, now);
      SeenIs(p, e, m, status, now);
    }
  }

  lemma ExplainedAsked(pending: Option<Intent>, status: Status, now: Instant)
    ensures Explained(pending, status, now) ==> pending.Some? && Fresh(pending.value, now)
  {
  }

  lemma ProgramOf(e: Evidence, m: Memory, status: Status, now: Instant) returns (p: Program)
    requires Usable(e, m, status, now)
    ensures status.activeProgram.Some? && status.activeProgram.value - 1 in e.programs && !NoProgram(status)
    ensures p == e.programs[status.activeProgram.value - 1]
  {
    p := e.programs[status.activeProgram.value - 1];
  }

  // ---- what an observation makes of the state ------------------------------------------------------

  /** The run that the previous observation saw goes on: it was seen just before, the same program or none runs, and no
      command explains a new one. */
  predicate GoesOn(t: Tracker, status: Status, now: Instant, e: Evidence) {
    t.current.Some? && Busy(status) && Watched(t.memory, now, e.pollInterval) && !Explained(t.pending, status, now)
    && t.current.value.program == status.activeProgram
  }

  /** The stations of a run, with the one seen now: each once, in the order in which they were first seen. */
  predicate Sighted(before: seq<int>, status: Status, after: seq<int>) {
    if status.stationNum.Some? && status.stationNum.value != 0 && status.stationNum.value !in before
    then after == before + [status.stationNum.value] else after == before
  }

  /** A closed run keeps what was seen of it; it counts as interrupted after a gap, as replaced by one that was seen to
      follow, and as finished otherwise. */
  predicate ClosedAs(run: Observed, closed: Observed, watched: bool, busy: bool, now: Instant) {
    && closed.source == run.source && closed.program == run.program && closed.stations == run.stations
    && closed.firstDetected == run.firstDetected && closed.lastSeen == run.lastSeen
    && closed.finishedDetected == (if watched then Some(now) else None)
    && closed.outcome == (if !watched then ObservationInterrupted else if busy then Replaced else Finished)
  }

  /** One observation, said without the observer. */
  lemma ObservationTells(t: Tracker, status: Status, now: Instant, e: Evidence)
    requires forall i :: i in e.programs ==> ValidSlots(e.programs[i].startTimes)
    ensures var u := Next(t, Observation(status, now, e));
            && u.memory == Memory(lastSeen := Some(now), lastRevision := e.revision, lastActive := Busy(status))
            && u.pending == (if t.pending.Some? && Busy(status) && Fresh(t.pending.value, now)
                                && !AskedFor(t.pending.value, status) then t.pending else None)
            && (u.current.Some? <==> Busy(status))
            && (GoesOn(t, status, now, e) ==>
                  && u.log == t.log && Sighted(t.current.value.stations, status, u.current.value.stations)
                  && u.current.value == t.current.value.(lastSeen := now, stations := u.current.value.stations))
            && (!GoesOn(t, status, now, e) && t.current.None? ==> u.log == t.log)
            && (!GoesOn(t, status, now, e) && t.current.Some? ==>
                  && |u.log| == |t.log| + 1 && u.log[1..] == t.log
                  && ClosedAs(t.current.value, u.log[0], Watched(t.memory, now, e.pollInterval), Busy(status), now))
            && (!GoesOn(t, status, now, e) && Busy(status) ==>
                  && u.current.value.source == Attributed(e, t.memory, status, now, t.pending)
                  && u.current.value.program == status.activeProgram && Sighted([], status, u.current.value.stations)
                  && u.current.value.firstDetected == now && u.current.value.lastSeen == now
                  && u.current.value.outcome == Running && u.current.value.finishedDetected == None)
  {
    hide Attributed, NewSource, Watched, Continuous;
    WatchedIs(t.memory, now, e.pollInterval);
    if Busy(status) {
      TakenIs(t.pending, status, now);
      SourceIsAttributed(e, t.memory, status, now, t.pending);
    }
  }
}
