/** The watering-activity observer of `activity.py`: a run tracker, and where its attributions come from. */
module Activity {
  import opened Options
  import opened Bytes
  import opened Protocol
  import opened Schedule

  const HISTORY_LIMIT := 30
  const SECOND := 1_000_000

  /** Microseconds on the wall clock, at least a day after the calendar begins. */
  type Instant = t: int | t >= 86_400_000_000 witness 86_400_000_000

  datatype Source = HomeAssistant | Scheduled | Bluetooth | Unknown

  datatype Outcome = Running | Finished | Replaced | ObservationInterrupted

  /** One observed watering run. */
  datatype Observed = Observed(
    source: Source, program: Option<int>, stations: seq<int>, firstDetected: Instant, lastSeen: Instant,
    finishedDetected: Option<Instant>, outcome: Outcome)

  datatype Status = Status(
    isWatering: bool, activeProgram: Option<int>, stationNum: Option<int>, remainingSeconds: Option<int>,
    manualOrigin: bool, timeAlarm: bool)

  /** A journaled Home Assistant command. */
  datatype Intent = Intent(at: Option<Instant>, station: Option<int>, program: Option<int>, confirmed: bool)

  /** What the observer can consult besides the status itself. */
  datatype Evidence = Evidence(
    programs: map<int, Program>, lastRead: Option<Instant>, restorePending: bool, revision: Option<Frame>, pollInterval: int)

  /** What the observer remembers of the previous observation. */
  datatype Memory = Memory(lastSeen: Option<Instant>, lastRevision: Option<Frame>, lastActive: bool)

  /** Python truth of an optional number. */
  predicate Truthy(v: Option<int>) {
    v.Some? && v.value != 0
  }

  predicate Active(status: Status) {
    status.isWatering || Truthy(status.activeProgram)
  }

  predicate Continuous(m: Memory, now: Instant, pollInterval: int) {
    m.lastSeen.Some?
    && 0 <= now - m.lastSeen.value <= (if pollInterval * 2 + 30 > 60 then pollInterval * 2 + 30 else 60) * SECOND
  }

  // ---- attribution -----------------------------------------------------------------------

  function TimetableOf(p: Program): Timetable {
    Timetable(p.startTimes, p.cycle, p.weekDays, p.periodLength, p.synchroDay)
  }

  /** The evidence guards: a known program, an undisturbed and recent configuration, a usable phase. */
  predicate Usable(e: Evidence, m: Memory, status: Status, now: Instant) {
    && Truthy(status.activeProgram) && status.activeProgram.value - 1 in e.programs
    && !status.timeAlarm && !e.restorePending && m.lastRevision == e.revision
    && e.lastRead.Some? && 0 <= now - e.lastRead.value <= 7200 * SECOND
    && var p := e.programs[status.activeProgram.value - 1]; p.cycle == 4 ==> IntervalPhaseValid(p.periodLength, p.synchroDay)
  }

  function FirstActive(durations: seq<int>): Option<nat> {
    if durations == [] then None
    else if durations[0] > 0 then Some(0)
    else var r := FirstActive(durations[1..]); if r.Some? then Some(r.value + 1) else None
  }

  /** The budgeted duration of the first active station, in microseconds. */
  function Budgeted(p: Program, k: nat): int
    requires k < |p.durations|
  {
    p.durations[k] * p.waterBudget * 10_000
  }

  /** A run discovered after an unobserved gap may be traced back to its start. */
  predicate Traceable(p: Program, e: Evidence, m: Memory, status: Status, now: Instant) {
    && !m.lastActive && m.lastSeen.Some? && 0 <= now - m.lastSeen.value <= 600 * SECOND
    && e.lastRead.Some? && e.lastRead.value <= m.lastSeen.value && p.interStationDelay == 0
    && var k := FirstActive(p.durations);
    && k.Some? && k.value < |p.durations| && status.stationNum == Some(k.value + 1) && status.isWatering
    && status.remainingSeconds.Some? && status.remainingSeconds.value > 0
    && 0 < Budgeted(p, k.value) && status.remainingSeconds.value * SECOND <= Budgeted(p, k.value)
  }

  function Max(a: int, b: int): int {
    if a > b then a else b
  }

  /** The window in which such a run must have started. */
  function Earliest(p: Program, e: Evidence, m: Memory, status: Status, now: Instant): (t: Instant)
    requires Traceable(p, e, m, status, now)
    ensures t >= m.lastSeen.value
  {
    var d := Budgeted(p, FirstActive(p.durations).value);
    Max(m.lastSeen.value, now - (d - status.remainingSeconds.value * SECOND + 30 * SECOND))
  }

  function Latest(p: Program, e: Evidence, m: Memory, status: Status, now: Instant): int
    requires Traceable(p, e, m, status, now)
  {
    var d := Budgeted(p, FirstActive(p.durations).value);
    now - (Max(0, d / (60 * SECOND) * (60 * SECOND) - status.remainingSeconds.value * SECOND) - 30 * SECOND)
  }

  /** The two chained searches after an unobserved gap. */
  predicate StartsOnce(t: Timetable, earliest: Instant, latest: int) {
    var candidate := NextStart(t, earliest);
    && candidate.Some? && candidate.value <= latest
    && var following := NextStart(t, candidate.value);
       following.None? || following.value > latest
  }

  /** `_classify`. */
  function Classify(e: Evidence, m: Memory, status: Status, now: Instant, continuous: bool,
                    intent: Option<Intent>): Source {
    if intent.Some? then (if intent.value.confirmed || status.manualOrigin then HomeAssistant else Unknown)
    else if m.lastSeen.None? then Unknown
    else if !Truthy(status.activeProgram) then (if continuous && status.manualOrigin then Bluetooth else Unknown)
    else if !Usable(e, m, status, now) then Unknown
    else
      var p := e.programs[status.activeProgram.value - 1];
      if !continuous then
        if !Traceable(p, e, m, status, now) then Unknown
        else
          if StartsOnce(TimetableOf(p), Earliest(p, e, m, status, now), Latest(p, e, m, status, now)) then Scheduled
          else Unknown
      else
        var candidate := NextStart(TimetableOf(p), m.lastSeen.value - 30 * SECOND);
        if candidate.Some? && candidate.value <= now + 30 * SECOND then Scheduled else Bluetooth
  }

  /** Some start lies in the half-open window. */
  ghost predicate StartIn(starts: iset<int>, after: int, until: int) {
    exists u :: u in starts && after < u <= until
  }

  /** One and only one start lies in it. */
  ghost predicate OneStartIn(starts: iset<int>, after: int, until: int) {
    exists u :: u in starts && after < u <= until && forall v :: v in starts && after < v <= until ==> v == u
  }

  lemma NextDecidesWindow(starts: iset<int>, after: int, until: int, r: Option<int>)
    requires IsNext(starts, after, r)
    ensures StartIn(starts, after, until) <==> r.Some? && r.value <= until
  {
  }

  lemma TwoNextsDecideOne(starts: iset<int>, after: int, until: int, first: Option<int>, second: Option<int>)
    requires IsNext(starts, after, first) && (first.Some? ==> IsNext(starts, first.value, second))
    ensures OneStartIn(starts, after, until) <==>
              first.Some? && first.value <= until && (second.None? || second.value > until)
  {
  }

  /** A program run watched as it began is called scheduled exactly when the program has a start in the watched
      interval, thirty seconds either way, and a manual Bluetooth run otherwise. */
  lemma ContinuousAttribution(e: Evidence, m: Memory, status: Status, now: Instant)
    requires m.lastSeen.Some? && Usable(e, m, status, now)
    requires var p := e.programs[status.activeProgram.value - 1]; p.cycle != 4 && ValidSlots(p.startTimes)
    ensures var t := TimetableOf(e.programs[status.activeProgram.value - 1]);
            var r := Classify(e, m, status, now, true, None);
            && (r.Scheduled? <==> StartIn(CalendarStarts(t), m.lastSeen.value - 30 * SECOND, now + 30 * SECOND))
            && (r.Scheduled? || r.Bluetooth?)
  {
    hide NextStart, CalendarStarts, IsNext;
    var t, after := TimetableOf(e.programs[status.activeProgram.value - 1]), m.lastSeen.value - 30 * SECOND;
    NextStartIsMinimum(t, after);
    NextDecidesWindow(CalendarStarts(t), after, now + 30 * SECOND, NextStart(t, after));
  }

  /** The grid of an interval program as its countdown places it at `from`. */
  ghost function GridAt(t: Timetable, from: int): iset<int> {
    GridStarts(Enabled(t.startTimes), DayOf(from) + t.synchroDay, t.periodLength)
  }

  lemma NoStartOnEmptyGrid(slots: seq<Option<int>>, anchor: int, n: int, after: int)
    ensures Enabled(slots) == [] ==> IsNext(GridStarts(Enabled(slots), anchor, n), after, None)
  {
  }

  lemma NextOnGrid(t: Timetable, from: nat)
    requires t.cycle == 4 && IntervalPhaseValid(t.periodLength, t.synchroDay) && ValidSlots(t.startTimes)
    ensures IsNext(GridAt(t, from), from, NextStart(t, from))
  {
    hide NextIntervalStart, GridStarts, IsNext;
    NextIntervalIsGridMinimum(Enabled(t.startTimes), t.periodLength, t.synchroDay, from);
    NoStartOnEmptyGrid(t.startTimes, DayOf(from) + t.synchroDay, t.periodLength, from);
  }

  /** The same for an interval program, on the grid its countdown gives at the start of the watched interval. */
  lemma ContinuousInterval(e: Evidence, m: Memory, status: Status, now: Instant)
    requires m.lastSeen.Some? && Usable(e, m, status, now)
    requires var p := e.programs[status.activeProgram.value - 1]; p.cycle == 4 && ValidSlots(p.startTimes)
    ensures var t, after := TimetableOf(e.programs[status.activeProgram.value - 1]), m.lastSeen.value - 30 * SECOND;
            var r := Classify(e, m, status, now, true, None);
            && (r.Scheduled? <==> StartIn(GridAt(t, after), after, now + 30 * SECOND))
            && (r.Scheduled? || r.Bluetooth?)
  {
    hide NextStart, GridAt, IsNext;
    var t, after := TimetableOf(e.programs[status.activeProgram.value - 1]), m.lastSeen.value - 30 * SECOND;
    NextOnGrid(t, after);
    NextDecidesWindow(GridAt(t, after), after, now + 30 * SECOND, NextStart(t, after));
  }

  lemma StartsOnceIsOneStart(t: Timetable, earliest: Instant, latest: int)
    requires t.cycle != 4 && ValidSlots(t.startTimes)
    ensures StartsOnce(t, earliest, latest) <==> OneStartIn(CalendarStarts(t), earliest, latest)
  {
    hide NextStart, CalendarStarts;
    NextStartIsMinimum(t, earliest);
    var first := NextStart(t, earliest);
    if first.Some? {
      NextStartIsMinimum(t, first.value);
      TwoNextsDecideOne(CalendarStarts(t), earliest, latest, first, NextStart(t, first.value));
    } else {
      TwoNextsDecideOne(CalendarStarts(t), earliest, latest, first, None);
    }
  }

  /** After a gap, the two searches decide. */
  lemma GapDecides(e: Evidence, m: Memory, status: Status, now: Instant)
    requires m.lastSeen.Some? && Usable(e, m, status, now)
    requires Traceable(e.programs[status.activeProgram.value - 1], e, m, status, now)
    ensures var p := e.programs[status.activeProgram.value - 1];
            && (p.cycle == 4 ==> IntervalPhaseValid(p.periodLength, p.synchroDay))
            && Classify(e, m, status, now, false, None)
               == if StartsOnce(TimetableOf(p), Earliest(p, e, m, status, now), Latest(p, e, m, status, now)) then Scheduled
                  else Unknown
  {
    hide StartsOnce, Traceable, Earliest, Latest;
  }

  /** A program run found after a short gap is called scheduled exactly when one and only one start lies in the
      window traced back from its remaining time; otherwise nothing is claimed. */
  lemma GapAttribution(e: Evidence, m: Memory, status: Status, now: Instant)
    requires m.lastSeen.Some? && Usable(e, m, status, now)
    requires var p := e.programs[status.activeProgram.value - 1];
             p.cycle != 4 && ValidSlots(p.startTimes) && Traceable(p, e, m, status, now)
    ensures var p := e.programs[status.activeProgram.value - 1];
            var r := Classify(e, m, status, now, false, None);
            && (r.Scheduled? <==> OneStartIn(CalendarStarts(TimetableOf(p)), Earliest(p, e, m, status, now),
                                             Latest(p, e, m, status, now)))
            && (r.Scheduled? || r.Unknown?)
  {
    hide StartsOnce, OneStartIn, Traceable, Earliest, Latest, Classify;
    var p := e.programs[status.activeProgram.value - 1];
    GapDecides(e, m, status, now);
    StartsOnceIsOneStart(TimetableOf(p), Earliest(p, e, m, status, now), Latest(p, e, m, status, now));
  }

  // ---- the same after a gap, for interval programs ----------------------------------------------

  /** The run day is tomorrow, and two of its starts are over by `latest`. The second search reads the countdown
      from the first start, lands on a later day and misses the second one. */
  predicate MissesSecond(t: Timetable, earliest: Instant, latest: int) {
    t.synchroDay == 1 && exists m, n :: m in Enabled(t.startTimes) && n in Enabled(t.startTimes)
                                        && m < n && At(DayOf(earliest) + 1, n) <= latest
  }

  /** A grid start lies on a grid day: today's run day, a period or more before it, or a period or more after. */
  lemma GridDayOf(t: Timetable, from: int, u: int)
    requires IntervalPhaseValid(t.periodLength, t.synchroDay) && ValidSlots(t.startTimes) && u in GridAt(t, from)
    ensures var base, n := DayOf(from) + t.synchroDay, t.periodLength;
            DayOf(u) <= base - n || DayOf(u) == base || DayOf(u) >= base + n
    ensures exists m :: m in Enabled(t.startTimes) && u == At(DayOf(u), m)
  {
    var enabled, base, n := Enabled(t.startTimes), DayOf(from) + t.synchroDay, t.periodLength;
    var k :| OnGridDay(enabled, GridDay(base, n, k), u);
    var m :| m in enabled && u == At(GridDay(base, n, k), m);
    AtDay(GridDay(base, n, k), m);
    OutsideThePeriod(n, k);
  }

  lemma AtDay(day: int, minutes: int)
    requires 0 <= minutes < 1440
    ensures DayOf(At(day, minutes)) == day
  {
  }

  lemma InGridToday(t: Timetable, from: int, m: int)
    requires m in Enabled(t.startTimes)
    ensures At(DayOf(from) + t.synchroDay, m) in GridAt(t, from)
  {
    var enabled, base, n := Enabled(t.startTimes), DayOf(from) + t.synchroDay, t.periodLength;
    OutsideThePeriod(if n >= 1 then n else 1, 0);
    assert GridDay(base, n, 0) == base;
    assert OnGridDay(enabled, GridDay(base, n, 0), At(base, m));
  }

  /** With a countdown of zero, the grid placed at one of its own starts is the same grid. */
  lemma GridFromStart(t: Timetable, from: Instant, u: Instant)
    requires t.synchroDay == 0 && t.periodLength >= 1 && ValidSlots(t.startTimes) && u in GridAt(t, from)
    ensures GridAt(t, u) == GridAt(t, from)
  {
    hide GridStarts;
    var enabled, n := Enabled(t.startTimes), t.periodLength;
    var k := GridStep(t, from, u);
    SameGrid(enabled, DayOf(from), DayOf(u), k, n);
  }

  lemma GridStep(t: Timetable, from: Instant, u: Instant) returns (k: int)
    requires t.synchroDay == 0 && ValidSlots(t.startTimes) && u in GridAt(t, from)
    ensures DayOf(u) == DayOf(from) + k * t.periodLength
  {
    var enabled, n := Enabled(t.startTimes), t.periodLength;
    k :| OnGridDay(enabled, GridDay(DayOf(from), n, k), u);
    var m :| m in enabled && u == At(GridDay(DayOf(from), n, k), m);
    AtDay(GridDay(DayOf(from), n, k), m);
  }

  /** With a positive countdown, the second search starts from a day after the window. */
  lemma FollowingTooLate(t: Timetable, earliest: Instant, latest: int, first: Instant, following: int)
    requires IntervalPhaseValid(t.periodLength, t.synchroDay) && ValidSlots(t.startTimes) && t.synchroDay > 0
    requires latest <= earliest + 86_400_000_000
    requires first in GridAt(t, earliest) && first > earliest && following in GridAt(t, first) && following > first
    ensures following > latest
  {
    hide GridAt;
    GridDayOf(t, earliest, first);
    GridDayOf(t, first, following);
    DaysApart(earliest, first);
    DaysApart(first, following);
    DaysApart(latest, following);
  }

  lemma DaysApart(a: int, b: int)
    ensures a < b ==> DayOf(a) <= DayOf(b)
    ensures DayOf(a) < DayOf(b) ==> a < b
  {
  }

  /** Within a window of at most a day, the two searches find one and only one start when the countdown is zero,
      and otherwise some start. */
  lemma StartsOnceInterval(t: Timetable, earliest: Instant, latest: int)
    requires t.cycle == 4 && IntervalPhaseValid(t.periodLength, t.synchroDay) && ValidSlots(t.startTimes)
    requires latest <= earliest + 86_400_000_000
    ensures StartsOnce(t, earliest, latest) <==>
              if t.synchroDay == 0 then OneStartIn(GridAt(t, earliest), earliest, latest)
              else StartIn(GridAt(t, earliest), earliest, latest)
  {
    hide NextStart, GridAt, OneStartIn, StartIn;
    var grid, first := GridAt(t, earliest), NextStart(t, earliest);
    NextOnGrid(t, earliest);
    NextDecidesWindow(grid, earliest, latest, first);
    if first.None? {
      TwoNextsDecideOne(grid, earliest, latest, first, None);
    } else {
      var u: Instant := first.value;
      NextOnGrid(t, u);
      var second := NextStart(t, u);
      if t.synchroDay == 0 {
        GridFromStart(t, earliest, u);
        TwoNextsDecideOne(grid, earliest, latest, first, second);
      } else if second.Some? {
        FollowingTooLate(t, earliest, latest, u, second.value);
      }
    }
  }

  /** Starts of a short window lie on today's run day, or on tomorrow's. */
  lemma WindowStarts(t: Timetable, earliest: Instant, latest: int, u: int)
    requires IntervalPhaseValid(t.periodLength, t.synchroDay) && ValidSlots(t.startTimes) && t.synchroDay > 0
    requires latest <= earliest + 86_400_000_000
    requires u in GridAt(t, earliest) && earliest < u <= latest
    ensures t.synchroDay == 1 && DayOf(u) == DayOf(earliest) + 1
    ensures exists m :: m in Enabled(t.startTimes) && u == At(DayOf(earliest) + 1, m)
  {
    hide GridAt;
    GridDayOf(t, earliest, u);
    DaysApart(earliest, u);
    DaysApart(u, latest);
    DaysApart(latest, u);
  }

  /** A second start is missed exactly when two lie in the window. */
  lemma MissedSecond(t: Timetable, earliest: Instant, latest: int)
    requires IntervalPhaseValid(t.periodLength, t.synchroDay) && ValidSlots(t.startTimes) && t.synchroDay > 0
    requires latest <= earliest + 86_400_000_000
    ensures MissesSecond(t, earliest, latest) <==>
              StartIn(GridAt(t, earliest), earliest, latest) && !OneStartIn(GridAt(t, earliest), earliest, latest)
  {
    hide GridAt, MissesSecond;
    var grid := GridAt(t, earliest);
    if MissesSecond(t, earliest, latest) {
      TwoInWindow(t, earliest, latest);
    } else if u :| u in grid && earliest < u <= latest {
      forall v | v in grid && earliest < v <= latest
        ensures v == u
      {
        NoOtherInWindow(t, earliest, latest, u, v);
      }
    }
  }

  lemma TwoInWindow(t: Timetable, earliest: Instant, latest: int)
    requires MissesSecond(t, earliest, latest) && ValidSlots(t.startTimes)
    ensures exists u, v :: u in GridAt(t, earliest) && v in GridAt(t, earliest) && earliest < u < v <= latest
  {
    hide GridAt;
    var day := DayOf(earliest) + 1;
    var m, n :| m in Enabled(t.startTimes) && n in Enabled(t.startTimes) && m < n && At(day, n) <= latest;
    InGridToday(t, earliest, m);
    InGridToday(t, earliest, n);
    AtDay(day, m);
    DaysApart(earliest, At(day, m));
  }

  lemma NoOtherInWindow(t: Timetable, earliest: Instant, latest: int, u: int, v: int)
    requires IntervalPhaseValid(t.periodLength, t.synchroDay) && ValidSlots(t.startTimes) && t.synchroDay > 0
    requires latest <= earliest + 86_400_000_000 && !MissesSecond(t, earliest, latest)
    requires u in GridAt(t, earliest) && earliest < u <= latest && v in GridAt(t, earliest) && earliest < v <= latest
    ensures u == v
  {
    hide GridAt;
    WindowStarts(t, earliest, latest, u);
    WindowStarts(t, earliest, latest, v);
  }

  /** So after a short gap the searches find one and only one start, or miss a second one. */
  lemma IntervalJudged(t: Timetable, earliest: Instant, latest: int)
    requires t.cycle == 4 && IntervalPhaseValid(t.periodLength, t.synchroDay) && ValidSlots(t.startTimes)
    requires latest <= earliest + 86_400_000_000
    ensures StartsOnce(t, earliest, latest) <==>
              OneStartIn(GridAt(t, earliest), earliest, latest) || MissesSecond(t, earliest, latest)
    ensures MissesSecond(t, earliest, latest) ==> !OneStartIn(GridAt(t, earliest), earliest, latest)
  {
    hide StartsOnce, GridAt;
    StartsOnceInterval(t, earliest, latest);
    if t.synchroDay > 0 {
      MissedSecond(t, earliest, latest);
      OneIsSome(GridAt(t, earliest), earliest, latest);
    }
    hide StartIn, OneStartIn;
  }

  lemma OneIsSome(starts: iset<int>, after: int, until: int)
    ensures OneStartIn(starts, after, until) ==> StartIn(starts, after, until)
  {
  }

  /** The window traced back is under two minutes wide. */
  lemma ShortWindow(p: Program, e: Evidence, m: Memory, status: Status, now: Instant)
    requires Traceable(p, e, m, status, now)
    ensures Latest(p, e, m, status, now) < Earliest(p, e, m, status, now) + 120 * SECOND
  {
    var d := Budgeted(p, FirstActive(p.durations).value);
    assert d - 60 * SECOND < d / (60 * SECOND) * (60 * SECOND) <= d;
  }

  /** The run day is tomorrow, the program starts at midnight and a minute later, and both are over by `latest`. */
  predicate MissesMinute(t: Timetable, earliest: Instant, latest: int) {
    && t.synchroDay == 1 && Some(0) in t.startTimes && Some(1) in t.startTimes
    && At(DayOf(earliest) + 1, 1) <= latest
  }

  /** In so short a window, no other second start can be missed. */
  lemma OnlyMidnight(t: Timetable, earliest: Instant, latest: int)
    requires ValidSlots(t.startTimes) && latest < earliest + 120 * SECOND
    ensures MissesSecond(t, earliest, latest) <==> MissesMinute(t, earliest, latest)
  {
    if MissesSecond(t, earliest, latest) {
      var m, n :| m in Enabled(t.startTimes) && n in Enabled(t.startTimes) && m < n && At(DayOf(earliest) + 1, n) <= latest;
      assert m == 0 && n == 1;
    }
    if MissesMinute(t, earliest, latest) {
      assert 0 in Enabled(t.startTimes) && 1 in Enabled(t.startTimes);
    }
  }

  /** An interval run found after a short gap is called scheduled exactly when one and only one start of the grid
      its countdown gives lies in the window traced back, unless the second of two starts is missed: then it is
      called scheduled although both lie in it. That takes a run day tomorrow, starts at 00:00 and 00:01, and a
      window that reaches 00:01. */
  lemma GapInterval(e: Evidence, m: Memory, status: Status, now: Instant)
    requires m.lastSeen.Some? && Usable(e, m, status, now)
    requires var p := e.programs[status.activeProgram.value - 1];
             p.cycle == 4 && ValidSlots(p.startTimes) && Traceable(p, e, m, status, now)
    ensures var p := e.programs[status.activeProgram.value - 1];
            var t, earliest, latest := TimetableOf(p), Earliest(p, e, m, status, now), Latest(p, e, m, status, now);
            var r := Classify(e, m, status, now, false, None);
            && (r.Scheduled? <==> OneStartIn(GridAt(t, earliest), earliest, latest) || MissesMinute(t, earliest, latest))
            && (r.Scheduled? || r.Unknown?)
            && (MissesMinute(t, earliest, latest) ==> !OneStartIn(GridAt(t, earliest), earliest, latest))
            && latest < earliest + 120 * SECOND
  {
    hide StartsOnce, OneStartIn, Traceable, Earliest, Latest, GridAt, MissesSecond, MissesMinute, Classify,
         IntervalPhaseValid;
    var p := e.programs[status.activeProgram.value - 1];
    var t, earliest, latest := TimetableOf(p), Earliest(p, e, m, status, now), Latest(p, e, m, status, now);
    GapDecides(e, m, status, now);
    ShortWindow(p, e, m, status, now);
    OnlyMidnight(t, earliest, latest);
    IntervalJudged(t, earliest, latest);
  }

  /** Every seventh day at midnight and a minute later, one minute and 59 seconds on the first station. */
  function MidnightProgram(): Program {
    Program([], 0, 100, 4, 0, 7, 1, None, None, [Some(0), Some(1), None, None, None, None, None, None],
            [119, 0, 0, 0, 0, 0, 0, 0, 0, 0, 0, 0])
  }

  /** Last seen idle at 23:58 of `day`, with the configuration read a minute before. */
  function MidnightMemory(day: nat): Memory
    requires day >= 1
  {
    Memory(Some(At(day, 1438)), None, false)
  }

  function MidnightEvidence(day: nat): Evidence
    requires day >= 1
  {
    Evidence(map[0 := MidnightProgram()], Some(At(day, 1437)), false, None, 30)
  }

  /** At 00:01:29 the first station runs, with one second to go. */
  function MidnightStatus(): Status {
    Status(true, Some(1), Some(1), Some(1), false, false)
  }

  lemma MidnightWindow(day: nat)
    requires day >= 1
    ensures var p, e, m, now := MidnightProgram(), MidnightEvidence(day), MidnightMemory(day), At(day + 1, 1) + 29 * SECOND;
            && Usable(e, m, MidnightStatus(), now) && Traceable(p, e, m, MidnightStatus(), now)
            && !Continuous(m, now, e.pollInterval)
            && Earliest(p, e, m, MidnightStatus(), now) == At(day, 1439) + SECOND
            && Latest(p, e, m, MidnightStatus(), now) == At(day + 1, 1)
  {
    assert FirstActive(MidnightProgram().durations) == Some(0);
  }

  /** A run found after a gap is called scheduled although not one and only one start lies in the window from
      `earliest` to `latest` traced back for it. */
  ghost predicate Misjudged(e: Evidence, m: Memory, status: Status, now: Instant, earliest: Instant, latest: int) {
    && m.lastSeen.Some? && Usable(e, m, status, now) && !Continuous(m, now, e.pollInterval)
    && var p := e.programs[status.activeProgram.value - 1];
    && p.cycle == 4 && Traceable(p, e, m, status, now)
    && earliest == Earliest(p, e, m, status, now) && latest == Latest(p, e, m, status, now)
    && Classify(e, m, status, now, false, None).Scheduled?
    && !OneStartIn(GridAt(TimetableOf(p), earliest), earliest, latest)
  }

  /** A real observation that goes wrong: both starts of the night lie in the window traced back, from 23:59:01 to
      00:01:00, and the run is called scheduled. */
  lemma SecondStartMissed(day: nat)
    requires day >= 1
    ensures var now, earliest, latest := At(day + 1, 1) + 29 * SECOND, At(day, 1439) + SECOND, At(day + 1, 1);
            && Misjudged(MidnightEvidence(day), MidnightMemory(day), MidnightStatus(), now, earliest, latest)
            && var grid := GridAt(TimetableOf(MidnightProgram()), earliest);
               At(day + 1, 0) in grid && At(day + 1, 1) in grid && earliest < At(day + 1, 0) < At(day + 1, 1) <= latest
  {
    hide Usable, Traceable, Continuous, Earliest, Latest, Classify, GridAt, OneStartIn, Enabled;
    var t, earliest := TimetableOf(MidnightProgram()), At(day, 1439) + SECOND;
    MidnightWindow(day);
    GapInterval(MidnightEvidence(day), MidnightMemory(day), MidnightStatus(), At(day + 1, 1) + 29 * SECOND);
    assert t.startTimes[0] == Some(0) && t.startTimes[1] == Some(1);
    InGridToday(t, earliest, 0);
    InGridToday(t, earliest, 1);
  }

  // ---- the tracker ------------------------------------------------------------------------------

  predicate Recent(i: Intent, now: Instant) {
    i.at.Some? && 0 <= now - i.at.value <= 300 * SECOND
  }

  predicate Matches(i: Intent, status: Status) {
    if Truthy(i.program) then i.program == status.activeProgram
    else !Truthy(status.activeProgram) && i.station == status.stationNum
  }

  /** What an observation does to a journaled intent: the intent left, and the one this run consumes. */
  function TakeIntent(pending: Option<Intent>, status: Status, now: Instant): (Option<Intent>, Option<Intent>) {
    if pending.None? then (None, None)
    else if !Active(status) || !Recent(pending.value, now) then (None, None)
    else if Matches(pending.value, status) then (None, pending)
    else (pending, None)
  }

  /** The run in progress goes on unnoticed. */
  predicate Continues(current: Option<Observed>, status: Status, continuous: bool, intent: Option<Intent>) {
    current.Some? && continuous && Active(status) && intent.None? && current.value.program == status.activeProgram
  }

  function Closed(run: Observed, status: Status, now: Instant, continuous: bool): Observed {
    if !continuous then run.(outcome := ObservationInterrupted, finishedDetected := None)
    else if Active(status) then run.(outcome := Replaced, finishedDetected := Some(now))
    else run.(outcome := Finished, finishedDetected := Some(now))
  }

  function NewSource(e: Evidence, m: Memory, status: Status, now: Instant, pending: Option<Intent>): Source {
    var continuous, taken := Continuous(m, now, e.pollInterval), TakeIntent(pending, status, now);
    if taken.0.Some? || (!continuous && pending.Some? && taken.1.None?) then Unknown
    else Classify(e, m, status, now, continuous, taken.1)
  }

  function WithStation(run: Observed, status: Status, now: Instant): Observed {
    var r := run.(lastSeen := now);
    if Truthy(status.stationNum) && status.stationNum.value !in run.stations
    then r.(stations := run.stations + [status.stationNum.value]) else r
  }

  function Newest(log: seq<Observed>): seq<Observed> {
    if |log| <= HISTORY_LIMIT then log else log[..HISTORY_LIMIT]
  }

  lemma NewestThirty(log: seq<Observed>)
    ensures Newest(log) <= log && |Newest(log)| == if |log| < 30 then |log| else 30
  {
  }

  datatype Event =
    | Observation(status: Status, now: Instant, evidence: Evidence)
    | CommandBegun(at: Instant, station: Option<int>, program: Option<int>)
    | CommandSent

  /** The observer's state, with every run finished so far, newest first, in place of the newest thirty. */
  datatype Tracker = Tracker(current: Option<Observed>, log: seq<Observed>, pending: Option<Intent>, memory: Memory)

  /** `load`: a restored intent is unconfirmed, a restored run is closed as interrupted. */
  function Loaded(storedHistory: seq<Observed>, storedCurrent: Option<Observed>, storedPending: Option<Intent>): Tracker {
    Tracker(
      None,
      (if storedCurrent.Some? then [Interrupted(storedCurrent.value)] else []) + Newest(storedHistory),
      if storedPending.Some? then Some(storedPending.value.(confirmed := false)) else None,
      Memory(None, None, false))
  }

  function Interrupted(run: Observed): Observed {
    run.(outcome := ObservationInterrupted, finishedDetected := None)
  }

  function ConfirmedIntent(pending: Option<Intent>): Option<Intent> {
    if pending.Some? then Some(pending.value.(confirmed := true)) else None
  }

  function Remembered(status: Status, now: Instant, e: Evidence): Memory {
    Memory(Some(now), e.revision, Active(status))
  }

  /** What one event makes of the state: a run goes on, or it is closed, and perhaps another one begins. */
  function Next(t: Tracker, event: Event): Tracker {
    match event
    case CommandBegun(at, station, program) => t.(pending := Some(Intent(Some(at), station, program, false)))
    case CommandSent => t.(pending := ConfirmedIntent(t.pending))
    case Observation(status, now, e) =>
      var taken, continuous := TakeIntent(t.pending, status, now), Continuous(t.memory, now, e.pollInterval);
      if Continues(t.current, status, continuous, taken.1) then
        Tracker(Some(WithStation(t.current.value, status, now)), t.log, taken.0, Remembered(status, now, e))
      else
        Tracker(
          if Active(status) then Some(Begun(NewSource(e, t.memory, status, now, t.pending), status, now)) else None,
          (if t.current.Some? then [Closed(t.current.value, status, now, continuous)] else []) + t.log,
          taken.0, Remembered(status, now, e))
  }

  function Begun(source: Source, status: Status, now: Instant): Observed {
    WithStation(Observed(source, status.activeProgram, [], now, now, None, Running), status, now)
  }

  function After(t: Tracker, events: seq<Event>): Tracker {
    if events == [] then t else Next(After(t, events[..|events| - 1]), events[|events| - 1])
  }

  class WateringActivity {
    var current: Option<Observed>
    var history: seq<Observed>
    var pending: Option<Intent>
    var memory: Memory

    /** Every run finished so far, newest first. */
    ghost var log: seq<Observed>

    ghost predicate Valid()
      reads this
    {
      history == Newest(log)
    }

    ghost function State(): Tracker
      reads this
    {
      Tracker(current, log, pending, memory)
    }

    /** `__init__` and `load`. */
    constructor (storedHistory: seq<Observed>, storedCurrent: Option<Observed>, storedPending: Option<Intent>)
      ensures Valid() && State() == Loaded(storedHistory, storedCurrent, storedPending)
    {
      current, history, memory := storedCurrent, Newest(storedHistory), Memory(None, None, false);
      pending := if storedPending.Some? then Some(storedPending.value.(confirmed := false)) else None;
      log := Newest(storedHistory);
      new;
      if current.Some? {
        Finish(ObservationInterrupted, None);
      }
    }

    /** `_finish`. */
    method Finish(outcome: Outcome, now: Option<Instant>)
      requires current.Some? && Valid()
      modifies this`current, this`history, this`log
      ensures current == None && log == [old(current).value.(outcome := outcome, finishedDetected := now)] + old(log)
      ensures Valid()
    {
      var run := current.value.(outcome := outcome, finishedDetected := now);
      log := [run] + log;
      history := Newest([run] + history);
      current := None;
    }

    /** The part of `command` before the command is sent. */
    method BeginCommand(at: Instant, station: Option<int>, program: Option<int>)
      requires Valid()
      modifies this`pending
      ensures Valid() && State() == Next(old(State()), CommandBegun(at, station, program))
    {
      pending := Some(Intent(Some(at), station, program, false));
    }

    /** The part of `command` after the command was sent successfully. */
    method ConfirmCommand()
      requires Valid()
      modifies this`pending
      ensures Valid() && State() == Next(old(State()), CommandSent)
    {
      if pending.Some? {
        pending := Some(pending.value.(confirmed := true));
      }
    }

    /** `shutdown`. */
    method Shutdown()
      requires Valid()
      modifies this
      ensures Valid() && current == None && pending == old(pending) && memory == old(memory)
      ensures log == (if old(current).Some? then [Interrupted(old(current).value)] else []) + old(log)
    {
      if current.Some? {
        Finish(ObservationInterrupted, None);
      }
    }

    /** `observe`. */
    method Observe(status: Status, now: Instant, e: Evidence)
      requires Valid()
      modifies this
      ensures Valid() && State() == Next(old(State()), Observation(status, now, e))
    {
      hide Classify, Newest, Continuous, Recent, Matches;
      var continuous := Continuous(memory, now, e.pollInterval);
      var active := Active(status);
      var unobservedCommand := !continuous && pending.Some?;
      var intent: Option<Intent> := None;
      if pending.Some? {
        if !active || !Recent(pending.value, now) {
          pending := None;
        } else if Matches(pending.value, status) {
          intent, pending := pending, None;
        }
      }
      if current.Some? && !continuous {
        Finish(ObservationInterrupted, None);
      }
      if current.Some? && active && (intent.Some? || current.value.program != status.activeProgram) {
        Finish(Replaced, Some(now));
      }
      if active && current.None? {
        var source := Classify(e, memory, status, now, continuous, intent);
        if pending.Some? || (unobservedCommand && intent.None?) {
          source := Unknown;
        }
        current := Some(Observed(source, status.activeProgram, [], now, now, None, Running));
      }
      if current.Some? {
        if !active {
          Finish(Finished, Some(now));
        } else {
          current := Some(WithStation(current.value, status, now));
        }
      }
      memory := Memory(Some(now), e.revision, active);
    }
  }

  /** Only a consumed intent can credit Home Assistant. */
  lemma CreditNeedsIntent(e: Evidence, m: Memory, status: Status, now: Instant, pending: Option<Intent>)
    ensures NewSource(e, m, status, now, pending).HomeAssistant? <==> Credits(pending, status, now)
  {
  }

  // ---- whole runs, told by the events alone ------------------------------------------------------------

  /** The intent left after the events. */
  function PendingAfter(restored: Option<Intent>, events: seq<Event>): Option<Intent> {
    if events == [] then restored
    else
      var before := PendingAfter(restored, events[..|events| - 1]);
      match events[|events| - 1]
      case CommandBegun(at, station, program) => Some(Intent(Some(at), station, program, false))
      case CommandSent => ConfirmedIntent(before)
      case Observation(status, now, _) => TakeIntent(before, status, now).0
  }

  /** The latest observation, if any. */
  function LastObservation(events: seq<Event>): (r: Option<Event>)
    ensures r.Some? ==> r.value.Observation?
  {
    if events == [] then None
    else if events[|events| - 1].Observation? then Some(events[|events| - 1])
    else LastObservation(events[..|events| - 1])
  }

  /** The observation consumes an intent that was confirmed, or it sees a manual run. */
  predicate Credits(pending: Option<Intent>, status: Status, now: Instant) {
    var taken := TakeIntent(pending, status, now).1;
    taken.Some? && (taken.value.confirmed || status.manualOrigin)
  }

  /** The observation sees the run that the previous one saw: both active, on the same program, near enough in
      time, and no intent consumed in between. */
  predicate Unbroken(before: Option<Event>, pending: Option<Intent>, o: Event)
    requires o.Observation? && (before.Some? ==> before.value.Observation?)
  {
    && before.Some? && Active(before.value.status) && Active(o.status)
    && before.value.status.activeProgram == o.status.activeProgram
    && Continuous(Remembered(before.value.status, before.value.now, before.value.evidence), o.now, o.evidence.pollInterval)
    && TakeIntent(pending, o.status, o.now).1.None?
  }

  /** How many observations found a run that the previous one had not seen. */
  function Starts(restored: Option<Intent>, events: seq<Event>): nat {
    if events == [] then 0
    else
      var n := |events| - 1;
      Starts(restored, events[..n])
      + if events[n].Observation? && Active(events[n].status)
           && !Unbroken(LastObservation(events[..n]), PendingAfter(restored, events[..n]), events[n]) then 1 else 0
  }

  /** How many observations consumed an intent with confirmation or a manual origin. */
  function Consumed(restored: Option<Intent>, events: seq<Event>): nat {
    if events == [] then 0
    else
      var n := |events| - 1;
      Consumed(restored, events[..n])
      + if events[n].Observation? && Credits(PendingAfter(restored, events[..n]), events[n].status, events[n].now) then 1 else 0
  }

  function Commands(events: seq<Event>): nat {
    if events == [] then 0
    else Commands(events[..|events| - 1]) + if events[|events| - 1].CommandBegun? then 1 else 0
  }

  function One(b: bool): nat {
    if b then 1 else 0
  }

  /** Every credit uses up a command, or the restored intent. */
  lemma {:induction false} ConsumedNeedCommands(restored: Option<Intent>, events: seq<Event>)
    ensures Consumed(restored, events) + One(PendingAfter(restored, events).Some?) <= Commands(events) + One(restored.Some?)
  {
    if events != [] {
      hide Recent, Matches;
      ConsumedNeedCommands(restored, events[..|events| - 1]);
    }
  }

  /** How many of the runs are credited to Home Assistant. */
  function Credited(runs: seq<Observed>): nat {
    if runs == [] then 0 else One(runs[0].source.HomeAssistant?) + Credited(runs[1..])
  }

  /** The runs of this process: those finished since `k` were in the log, and the current one. */
  function RunsSince(t: Tracker, k: nat): seq<Observed>
    requires k <= |t.log|
  {
    (if t.current.Some? then [t.current.value] else []) + t.log[..|t.log| - k]
  }

  /** The state agrees with what the events say: nothing is lost from the log, every start is one run, every
      consumed intent one credited run, and the current run is the one the latest observation saw. */
  ghost predicate Told(t: Tracker, loaded: Tracker, events: seq<Event>) {
    var last, k := LastObservation(events), |loaded.log|;
    && t.pending == PendingAfter(loaded.pending, events)
    && t.memory == (if last.Some? then Remembered(last.value.status, last.value.now, last.value.evidence) else loaded.memory)
    && (t.current.Some? <==> last.Some? && Active(last.value.status))
    && (t.current.Some? ==> t.current.value.program == last.value.status.activeProgram)
    && k <= |t.log| && t.log[|t.log| - k..] == loaded.log
    && |RunsSince(t, k)| == Starts(loaded.pending, events)
    && Credited(RunsSince(t, k)) == Consumed(loaded.pending, events)
  }

  lemma CreditedOneMore(run: Observed, runs: seq<Observed>)
    ensures Credited([run] + runs) == One(run.source.HomeAssistant?) + Credited(runs)
  {
    assert ([run] + runs)[1..] == runs;
  }

  /** The observation goes on with the current run. */
  predicate GoesOn(t: Tracker, status: Status, now: Instant, e: Evidence) {
    Continues(t.current, status, Continuous(t.memory, now, e.pollInterval), TakeIntent(t.pending, status, now).1)
  }

  lemma NextGoesOn(t: Tracker, status: Status, now: Instant, e: Evidence, k: nat)
    requires k <= |t.log| && GoesOn(t, status, now, e)
    ensures var u := Next(t, Observation(status, now, e));
            && u.log == t.log && |RunsSince(u, k)| == |RunsSince(t, k)|
            && Credited(RunsSince(u, k)) == Credited(RunsSince(t, k)) && !Credits(t.pending, status, now)
  {
    hide Continuous, NewSource, Recent, Matches;
    var u, rest := Next(t, Observation(status, now, e)), t.log[..|t.log| - k];
    CreditedOneMore(t.current.value, rest);
    CreditedOneMore(u.current.value, rest);
  }

  /** Otherwise the current run is closed, its source unchanged. */
  lemma NextCloses(t: Tracker, status: Status, now: Instant, e: Evidence, k: nat)
    requires k <= |t.log| && !GoesOn(t, status, now, e)
    ensures var u := Next(t, Observation(status, now, e));
            && k <= |u.log| && u.log[|u.log| - k..] == t.log[|t.log| - k..]
            && |u.log[..|u.log| - k]| == |RunsSince(t, k)|
            && Credited(u.log[..|u.log| - k]) == Credited(RunsSince(t, k))
  {
    hide Continuous, NewSource, TakeIntent, Continues, Begun;
    var u, rest := Next(t, Observation(status, now, e)), t.log[..|t.log| - k];
    if t.current.Some? {
      var closed := Closed(t.current.value, status, now, Continuous(t.memory, now, e.pollInterval));
      assert u.log == [closed] + t.log && u.log[..|u.log| - k] == [closed] + rest;
      assert u.log[|u.log| - k..] == t.log[|t.log| - k..];
      CreditedOneMore(t.current.value, rest);
      CreditedOneMore(closed, rest);
    } else {
      assert u.log == t.log && RunsSince(t, k) == rest;
    }
  }

  /** And a new one begins if the controller is active. */
  lemma NextBegins(t: Tracker, status: Status, now: Instant, e: Evidence, k: nat)
    requires k <= |t.log| && !GoesOn(t, status, now, e)
    ensures var u := Next(t, Observation(status, now, e));
            k <= |u.log| && var rest := u.log[..|u.log| - k];
            && |RunsSince(u, k)| == |rest| + One(Active(status))
            && Credited(RunsSince(u, k)) == Credited(rest) + One(Credits(t.pending, status, now))
  {
    hide Continuous, NewSource, Recent, Matches, Credited;
    NextCloses(t, status, now, e, k);
    var u := Next(t, Observation(status, now, e));
    var rest := u.log[..|u.log| - k];
    CreditNeedsIntent(e, t.memory, status, now, t.pending);
    if Active(status) {
      CreditedOneMore(u.current.value, rest);
    } else {
      assert RunsSince(u, k) == rest;
    }
  }

  /** An observation adds a run at the front exactly when one begins, and changes no source. */
  lemma NextRuns(t: Tracker, status: Status, now: Instant, e: Evidence, k: nat)
    requires k <= |t.log|
    ensures var u := Next(t, Observation(status, now, e));
            && k <= |u.log| && u.log[|u.log| - k..] == t.log[|t.log| - k..]
            && |RunsSince(u, k)| == |RunsSince(t, k)| + One(Active(status) && !GoesOn(t, status, now, e))
            && Credited(RunsSince(u, k)) == Credited(RunsSince(t, k)) + One(Credits(t.pending, status, now))
  {
    hide GoesOn, Next, Credited, Credits, RunsSince;
    if GoesOn(t, status, now, e) {
      NextGoesOn(t, status, now, e, k);
    } else {
      NextCloses(t, status, now, e, k);
      NextBegins(t, status, now, e, k);
    }
  }

  /** The current run goes on exactly when the observation is of the run the previous one saw. */
  lemma GoesOnUnbroken(t: Tracker, loaded: Tracker, events: seq<Event>, o: Event)
    requires Told(t, loaded, events) && loaded.memory == Memory(None, None, false) && o.Observation?
    ensures GoesOn(t, o.status, o.now, o.evidence) <==>
              Unbroken(LastObservation(events), PendingAfter(loaded.pending, events), o)
  {
    hide TakeIntent, Active, RunsSince, Credited, Starts, Consumed, LastObservation, PendingAfter;
  }

  lemma OneMoreEvent(loaded: Tracker, events: seq<Event>, n: nat)
    requires |events| == n + 1
    ensures After(loaded, events) == Next(After(loaded, events[..n]), events[n])
    ensures LastObservation(events) == if events[n].Observation? then Some(events[n]) else LastObservation(events[..n])
    ensures var restored, before := loaded.pending, PendingAfter(loaded.pending, events[..n]);
            && Starts(restored, events)
               == Starts(restored, events[..n])
                  + One(events[n].Observation? && Active(events[n].status)
                        && !Unbroken(LastObservation(events[..n]), before, events[n]))
            && Consumed(restored, events)
               == Consumed(restored, events[..n])
                  + One(events[n].Observation? && Credits(before, events[n].status, events[n].now))
  {
    hide Unbroken, Credits, Next, Active;
  }

  lemma PendingMore(loaded: Tracker, t: Tracker, events: seq<Event>, n: nat)
    requires |events| == n + 1 && t.pending == PendingAfter(loaded.pending, events[..n])
    ensures Next(t, events[n]).pending == PendingAfter(loaded.pending, events)
  {
    hide TakeIntent, Continues, Continuous, Closed, Begun, WithStation;
  }

  lemma NextCommand(t: Tracker, event: Event, k: nat)
    requires k <= |t.log| && !event.Observation?
    ensures var u := Next(t, event);
            && u.log == t.log && u.current == t.current && u.memory == t.memory && RunsSince(u, k) == RunsSince(t, k)
  {
  }

  lemma NextRemembers(t: Tracker, status: Status, now: Instant, e: Evidence)
    ensures var u := Next(t, Observation(status, now, e));
            && u.memory == Remembered(status, now, e) && (u.current.Some? <==> Active(status))
            && (u.current.Some? ==> u.current.value.program == status.activeProgram)
  {
    hide Continuous, TakeIntent, NewSource, Closed;
  }

  lemma ToldMore(loaded: Tracker, events: seq<Event>, n: nat)
    requires |events| == n + 1 && loaded.memory == Memory(None, None, false)
    requires Told(After(loaded, events[..n]), loaded, events[..n])
    ensures Told(After(loaded, events), loaded, events)
  {
    hide Next, After, Active, Starts, Consumed, PendingAfter, LastObservation, Credited, RunsSince, Credits, Unbroken, GoesOn;
    var t := After(loaded, events[..n]);
    OneMoreEvent(loaded, events, n);
    PendingMore(loaded, t, events, n);
    if events[n].Observation? {
      NextRemembers(t, events[n].status, events[n].now, events[n].evidence);
      NextRuns(t, events[n].status, events[n].now, events[n].evidence, |loaded.log|);
      GoesOnUnbroken(t, loaded, events[..n], events[n]);
    } else {
      NextCommand(t, events[n], |loaded.log|);
    }
  }

  /** What a whole run adds up to. */
  lemma {:induction false} RunTold(loaded: Tracker, events: seq<Event>)
    requires loaded.current.None? && loaded.memory == Memory(None, None, false)
    ensures Told(After(loaded, events), loaded, events)
  {
    if events != [] {
      hide Told;
      RunTold(loaded, events[..|events| - 1]);
      ToldMore(loaded, events, |events| - 1);
    } else {
      assert loaded.log[|loaded.log| - |loaded.log|..] == loaded.log;
    }
  }

  lemma ToldCredits(t: Tracker, loaded: Tracker, events: seq<Event>)
    requires Told(t, loaded, events)
    ensures |loaded.log| <= |t.log| && Credited(RunsSince(t, |loaded.log|)) == Consumed(loaded.pending, events)
  {
  }

  /** Over any run of one process: the state is the one the events lead to, the history is the newest thirty of
      its log, as many runs were started as observations found one that the previous observation had not seen, and
      Home Assistant is credited with as many of them as observations consumed one of its intents: never more than
      the commands it issued, an intent restored at load included. */
  method Run(storedHistory: seq<Observed>, storedCurrent: Option<Observed>, storedPending: Option<Intent>,
             events: seq<Event>)
    returns (a: WateringActivity)
    ensures fresh(a) && a.history <= a.log && |a.history| == if |a.log| < 30 then |a.log| else 30
    ensures var loaded := Loaded(storedHistory, storedCurrent, storedPending);
            a.State() == After(loaded, events) && Told(a.State(), loaded, events)
    ensures Credited(RunsSince(a.State(), |Loaded(storedHistory, storedCurrent, storedPending).log|))
            <= Commands(events) + One(storedPending.Some?)
  {
    hide Newest, Next, Told;
    a := new WateringActivity(storedHistory, storedCurrent, storedPending);
    ghost var loaded := a.State();
    for k := 0 to |events|
      invariant fresh(a) && a.Valid()
      invariant a.State() == After(loaded, events[..k])
    {
      assert events[..k + 1][..k] == events[..k];
      match events[k] {
        case Observation(status, now, evidence) => a.Observe(status, now, evidence);
        case CommandBegun(at, station, program) => a.BeginCommand(at, station, program);
        case CommandSent => a.ConfirmCommand();
      }
    }
    assert events[..|events|] == events;
    NewestThirty(a.log);
    RunTold(loaded, events);
    ToldCredits(a.State(), loaded, events);
    ConsumedNeedCommands(loaded.pending, events);
  }
}
