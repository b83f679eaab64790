/** Next-start arithmetic of `schedule.py`, on one wall clock counted in microseconds. */
module Schedule {
  import opened Options
  import opened Calendar
  import opened Modular

  const MAX_LOOKAHEAD_DAYS := 14

  /** The fields of a program that decide when it starts. */
  datatype Timetable = Timetable(
    startTimes: seq<Option<int>>, cycle: int, weekDays: int, periodLength: int, synchroDay: int)

  /** Every enabled slot is a minute of the day, as the decoder guarantees. */
  predicate ValidSlots(slots: seq<Option<int>>) {
    forall k :: 0 <= k < |slots| && slots[k].Some? ==> 0 <= slots[k].value < 1440
  }

  function Enabled(slots: seq<Option<int>>): (r: seq<int>)
    ensures forall m :: m in r <==> Some(m) in slots
  {
    if slots == [] then []
    else (if slots[0].Some? then [slots[0].value] else []) + Enabled(slots[1..])
  }

  function Insert(x: int, s: seq<int>): (r: seq<int>)
    requires forall i, j :: 0 <= i < j < |s| ==> s[i] <= s[j]
    ensures forall i, j :: 0 <= i < j < |r| ==> r[i] <= r[j]
    ensures forall m :: m in r <==> m == x || m in s
  {
    if s == [] || x <= s[0] then [x] + s
    else
      var r := Insert(x, s[1..]);
      assert forall m :: m in r ==> m == x || m in s[1..];
      assert forall k :: 0 <= k < |r| ==> r[k] in r;
      [s[0]] + r
  }

  function Sorted(s: seq<int>): (r: seq<int>)
    ensures forall i, j :: 0 <= i < j < |r| ==> r[i] <= r[j]
    ensures forall m :: m in r <==> m in s
  {
    if s == [] then [] else Insert(s[0], Sorted(s[1..]))
  }

  /** Bit `i` of a weekday mask. */
  predicate HasDay(mask: int, i: nat)
    decreases i
  {
    if i == 0 then mask % 2 == 1 else HasDay(mask / 2, i - 1)
  }

  predicate DayMatchesCycle(cycle: int, weekDays: int, day: nat) {
    var dom := DateOf(day).day;
    if cycle == 0 then HasDay(weekDays, Weekday(day))
    else if cycle == 1 then dom % 2 == 0
    else if cycle == 2 then dom % 2 == 1
    else if cycle == 3 then dom % 2 == 1 && dom != 31
    else false
  }

  predicate IntervalPhaseValid(periodLength: int, synchroDay: int) {
    periodLength >= 1 && 0 <= synchroDay < periodLength
  }

  /** The instant `minutes` after midnight of `day`. */
  function At(day: int, minutes: int): int {
    day * 86_400_000_000 + minutes * 60_000_000
  }

  function DayOf(now: int): int {
    now / 86_400_000_000
  }

  /** First of the (already sorted) slots on `day` that lies after `now`. */
  function FirstAfter(day: int, slots: seq<int>, now: int): (r: Option<int>)
    ensures r.Some? ==> r.value > now
  {
    if slots == [] then None
    else if At(day, slots[0]) > now then Some(At(day, slots[0]))
    else FirstAfter(day, slots[1..], now)
  }

  function FirstStartAfter(day: int, enabled: seq<int>, now: int): (r: Option<int>)
    ensures r.Some? ==> r.value > now
  {
    FirstAfter(day, Sorted(enabled), now)
  }

  function NextIntervalStart(enabled: seq<int>, periodLength: int, synchroDay: int, now: int): (r: Option<int>)
    ensures r.Some? ==> r.value > now
  {
    if !IntervalPhaseValid(periodLength, synchroDay) then None
    else
      var base := DayOf(now) + synchroDay;
      var first := FirstStartAfter(base, enabled, now);
      if first.Some? then first
      else FirstStartAfter(base + periodLength, enabled, now)
  }

  function FirstOn(t: Timetable, day: nat, now: int): (r: Option<int>)
    ensures r.Some? ==> r.value > now
  {
    if DayMatchesCycle(t.cycle, t.weekDays, day) then FirstStartAfter(day, Enabled(t.startTimes), now) else None
  }

  /** The bounded day-by-day scan, from `offset` days after today. */
  function Scan(t: Timetable, now: nat, offset: nat): (r: Option<int>)
    ensures r.Some? ==> r.value > now
    decreases MAX_LOOKAHEAD_DAYS - offset
  {
    if offset >= MAX_LOOKAHEAD_DAYS then None
    else
      var day := DayOf(now) + offset;
      var hit := FirstOn(t, day, now);
      if hit.Some? then hit else Scan(t, now, offset + 1)
  }

  function NextStart(t: Timetable, now: nat): (r: Option<int>)
    ensures r.Some? ==> r.value > now
  {
    if Enabled(t.startTimes) == [] then None
    else if t.cycle == 4 then
      NextIntervalStart(Enabled(t.startTimes), t.periodLength, t.synchroDay, now)
    else Scan(t, now, 0)
  }

  // ---- what a next start is, without any search --------------------------

  /** `r` is the least element of `starts` after `now`, or `None` when there is none. */
  ghost predicate IsNext(starts: iset<int>, now: int, r: Option<int>) {
    match r
    case None => forall u :: u in starts ==> u <= now
    case Some(t) => t in starts && t > now && forall u :: u in starts && u > now ==> t <= u
  }

  /** 2024-01-01 was a Monday. */
  const A_MONDAY := Date(2024, 1, 1)

  /** Bit `i` of a mask of seven. */
  predicate BitSet(mask: int, i: nat)
    requires i < 7
  {
    mask / [1, 2, 4, 8, 16, 32, 64][i] % 2 != 0
  }

  /** `date` is `i` days after some Monday, by the calendar. */
  predicate AfterMonday(date: Date, i: int)
    requires ValidDate(date)
  {
    (DayNumber(date) - DayNumber(A_MONDAY) - i) % 7 == 0
  }

  /** The run days by their dates: those as many days after a dated Monday as a bit of the mask says, those of an even
      day of the month, of an odd one, or of an odd one but the 31st. */
  ghost predicate RunDay(cycle: int, weekDays: int, d: nat) {
    var date := DateOf(d);
    match cycle
    case 0 => exists i :: 0 <= i < 7 && BitSet(weekDays, i) && AfterMonday(date, i)
    case 1 => exists half :: date.day == 2 * half
    case 2 => !exists half :: date.day == 2 * half
    case 3 => date.day != 31 && !exists half :: date.day == 2 * half
    case _ => false
  }

  ghost predicate StartsOn(t: Timetable, d: nat, u: int) {
    RunDay(t.cycle, t.weekDays, d) && OnGridDay(Enabled(t.startTimes), d, u)
  }

  lemma {:induction false} HasDayIsBit(mask: int, i: nat)
    requires i < 7
    ensures HasDay(mask, i) <==> BitSet(mask, i)
    decreases i
  {
    if i > 0 {
      HasDayIsBit(mask / 2, i - 1);
      HalfBit(mask, i);
    }
  }

  lemma HalfBit(mask: int, i: nat)
    requires 1 <= i < 7
    ensures BitSet(mask / 2, i - 1) <==> BitSet(mask, i)
  {
    if i == 1 { assert mask / 2 / 1 == mask / 2; }
    else if i == 2 { assert mask / 2 / 2 == mask / 4; }
    else if i == 3 { assert mask / 2 / 4 == mask / 8; }
    else if i == 4 { assert mask / 2 / 8 == mask / 16; }
    else if i == 5 { assert mask / 2 / 16 == mask / 32; }
    else { assert mask / 2 / 32 == mask / 64; }
  }

  lemma FromMonday(d: nat, i: int)
    requires 0 <= i < 7
    ensures AfterMonday(DateOf(d), i) <==> Weekday(d) == i
  {
    hide DayNumber, DateOf;
    MondayNumber();
    DayNumberOfDate(d);
    SevenAway(d - 738885, i);
    SevenAway(d, i);
  }

  lemma MondayNumber()
    ensures DayNumber(A_MONDAY) == 738885 == 7 * 105555
  {
  }

  lemma SevenAway(d: int, i: int)
    requires 0 <= i < 7
    ensures (d - i) % 7 == 0 <==> d % 7 == i
    ensures (d - 7 * 105555) % 7 == d % 7
  {
  }

  lemma WeeklyRunDay(weekDays: int, d: nat)
    ensures HasDay(weekDays, Weekday(d)) <==> RunDay(0, weekDays, d)
  {
    hide HasDay, BitSet, DateOf, AfterMonday, Weekday;
    WeekdayRange(d);
    HasDayIsBit(weekDays, Weekday(d));
    forall i | 0 <= i < 7
      ensures AfterMonday(DateOf(d), i) <==> Weekday(d) == i
    {
      FromMonday(d, i);
    }
  }

  lemma WeekdayRange(d: nat)
    ensures 0 <= Weekday(d) < 7
  {
  }

  /** The day-by-day test finds exactly the run days. */
  lemma MatchingIsRunDay(cycle: int, weekDays: int, d: nat)
    ensures DayMatchesCycle(cycle, weekDays, d) <==> RunDay(cycle, weekDays, d)
  {
    hide HasDay, BitSet, DateOf, DayNumber, Weekday;
    if cycle == 0 {
      WeeklyRunDay(weekDays, d);
    } else {
      var day := DateOf(d).day;
      assert day % 2 == 0 ==> day == 2 * (day / 2);
    }
  }

  ghost predicate CalendarStart(t: Timetable, u: int) {
    exists d: nat :: StartsOn(t, d, u)
  }

  /** All starts of a cycle 0-3 program, over every day of the calendar. */
  ghost function CalendarStarts(t: Timetable): iset<int> {
    iset u | CalendarStart(t, u)
  }

  /** Microseconds of a minute; a day has 1440. */
  const MINUTE := 60 * 1_000_000

  ghost predicate OnGridDay(enabled: seq<int>, day: int, u: int) {
    exists m :: m in enabled && u == (1440 * day + m) * MINUTE
  }

  function GridDay(anchor: int, n: int, k: int): int {
    anchor + k * n
  }

  ghost predicate GridStart(enabled: seq<int>, anchor: int, n: int, u: int) {
    exists k :: OnGridDay(enabled, GridDay(anchor, n, k), u)
  }

  /** All starts of an interval program running on every day `anchor + k * n`, k of either sign. */
  ghost function GridStarts(enabled: seq<int>, anchor: int, n: int): iset<int> {
    iset u | GridStart(enabled, anchor, n, u)
  }

  // ---- one day ----------------------------------------------------------

  lemma {:induction false} FirstAfterLeast(day: int, slots: seq<int>, now: int)
    requires forall i, j :: 0 <= i < j < |slots| ==> slots[i] <= slots[j]
    ensures var r := FirstAfter(day, slots, now);
            && (r.None? ==> forall m :: m in slots ==> At(day, m) <= now)
            && (r.Some? ==> r.value > now && (exists m :: m in slots && r.value == At(day, m))
                            && forall m :: m in slots && At(day, m) > now ==> r.value <= At(day, m))
  {
    if slots != [] {
      FirstAfterLeast(day, slots[1..], now);
      assert forall m :: m in slots ==> m == slots[0] || m in slots[1..];
      assert forall m :: m in slots ==> slots[0] <= m;
      assert forall m :: m in slots ==> At(day, slots[0]) <= At(day, m);
      assert slots[0] in slots;
    }
  }

  /** `r` is the least start after `now` on the one day `day`. */
  ghost predicate LeastOn(enabled: seq<int>, day: int, now: int, r: Option<int>) {
    && (r.Some? ==> r.value > now && OnGridDay(enabled, day, r.value))
    && forall u :: OnGridDay(enabled, day, u) && u > now ==> r.Some? && r.value <= u
  }

  lemma FirstStartAfterLeast(day: int, enabled: seq<int>, now: int)
    ensures LeastOn(enabled, day, now, FirstStartAfter(day, enabled, now))
  {
    FirstAfterLeast(day, Sorted(enabled), now);
  }

  lemma NowWithinToday(now: nat)
    ensures 0 <= DayOf(now) && At(DayOf(now), 0) <= now < At(DayOf(now) + 1, 0)
  {
  }

  // ---- cycles 0-3: the bounded scan is the unbounded minimum -------------

  /** None of the seven day bits is set. */
  ghost predicate NoDays(weekDays: int) {
    forall i :: 0 <= i < 7 ==> !BitSet(weekDays, i)
  }

  /** Whatever the month lengths, a runnable program has a run day among the next seven days. */
  lemma RunDayWithinAWeek(cycle: int, weekDays: int, day: nat) returns (e: nat)
    requires 0 <= cycle <= 3
    requires cycle == 0 ==> !NoDays(weekDays)
    ensures day < e <= day + 7 && RunDay(cycle, weekDays, e)
  {
    hide RunDay, BitSet;
    if cycle == 0 {
      var i :| 0 <= i < 7 && BitSet(weekDays, i);
      HasDayIsBit(weekDays, i);
      e := day + 1 + (i - (day + 1)) % 7;
      assert Weekday(e) == i;
    } else {
      ParityDayWithinThree(cycle, weekDays, day);
      e := if DayMatchesCycle(cycle, weekDays, day + 1) then day + 1
           else if DayMatchesCycle(cycle, weekDays, day + 2) then day + 2
           else day + 3;
    }
    MatchingIsRunDay(cycle, weekDays, e);
  }

  /** Months end on 28 to 31, so parities cannot be avoided for three days running. */
  lemma ParityDayWithinThree(cycle: int, weekDays: int, day: nat)
    requires 1 <= cycle <= 3
    ensures DayMatchesCycle(cycle, weekDays, day + 1) || DayMatchesCycle(cycle, weekDays, day + 2)
            || DayMatchesCycle(cycle, weekDays, day + 3)
  {
  }

  ghost predicate Runnable(t: Timetable) {
    0 <= t.cycle <= 3 && Enabled(t.startTimes) != [] && (t.cycle == 0 ==> !NoDays(t.weekDays))
  }

  /** `r` is the least start after `now` among the run days from `first` up to but excluding `last`. */
  ghost predicate LeastBetween(t: Timetable, first: int, last: int, now: int, r: Option<int>) {
    && (r.Some? ==> r.value > now && exists d: nat :: first <= d < last && StartsOn(t, d, r.value))
    && forall d: nat, u :: first <= d < last && StartsOn(t, d, u) && u > now ==> r.Some? && r.value <= u
  }

  lemma FirstOnLeast(t: Timetable, day: nat, now: int)
    ensures LeastBetween(t, day, day + 1, now, FirstOn(t, day, now))
  {
    hide DayMatchesCycle, FirstStartAfter, OnGridDay, RunDay;
    MatchingIsRunDay(t.cycle, t.weekDays, day);
    FirstStartAfterLeast(day, Enabled(t.startTimes), now);
    var r := FirstOn(t, day, now);
    if r.Some? { assert StartsOn(t, day, r.value); }
  }

  lemma LeastExtends(t: Timetable, first: nat, last: int, now: int, a: Option<int>, b: Option<int>)
    requires ValidSlots(t.startTimes) && first < last
    requires LeastBetween(t, first, first + 1, now, a) && LeastBetween(t, first + 1, last, now, b)
    ensures LeastBetween(t, first, last, now, if a.Some? then a else b)
  {
  }

  lemma EarlierDayEarlierStart(t: Timetable, d: nat, u: int, e: nat, v: int)
    requires ValidSlots(t.startTimes) && d < e && StartsOn(t, d, u) && StartsOn(t, e, v)
    ensures At(d, 0) <= u < At(d + 1, 0) <= At(e, 0) <= v
  {
    hide StartsOn;
    StartWithinDay(t, d, u);
    StartWithinDay(t, e, v);
  }

  lemma ScanStep(t: Timetable, now: nat, offset: nat)
    requires offset <= MAX_LOOKAHEAD_DAYS
    ensures Scan(t, now, offset) ==
              if offset == MAX_LOOKAHEAD_DAYS then None
              else if FirstOn(t, DayOf(now) + offset, now).Some? then FirstOn(t, DayOf(now) + offset, now)
              else Scan(t, now, offset + 1)
  {
    hide FirstOn;
  }

  /** From any offset, the scan finds the least start of the days it looks at. */
  lemma {:induction false} ScanLeast(t: Timetable, now: nat, offset: nat)
    requires ValidSlots(t.startTimes) && offset <= MAX_LOOKAHEAD_DAYS
    ensures LeastBetween(t, DayOf(now) + offset, DayOf(now) + MAX_LOOKAHEAD_DAYS, now, Scan(t, now, offset))
    decreases MAX_LOOKAHEAD_DAYS - offset
  {
    hide Scan, LeastBetween, FirstOn;
    ScanStep(t, now, offset);
    var day, last := DayOf(now) + offset, DayOf(now) + MAX_LOOKAHEAD_DAYS;
    if offset == MAX_LOOKAHEAD_DAYS {
      NoDayBetween(t, day, now);
    } else {
      ScanLeast(t, now, offset + 1);
      FirstOnLeast(t, day, now);
      LeastExtends(t, day, last, now, FirstOn(t, day, now), Scan(t, now, offset + 1));
    }
  }

  lemma NoDayBetween(t: Timetable, day: int, now: int)
    ensures LeastBetween(t, day, day, now, None)
  {
  }

  /** A program without slots or days has no starts. */
  lemma NeverStarts(t: Timetable, d: nat, u: int)
    requires t.cycle != 4 && !Runnable(t)
    ensures !StartsOn(t, d, u)
  {
  }

  lemma NextIsScan(t: Timetable, now: nat)
    requires ValidSlots(t.startTimes) && t.cycle != 4
    ensures LeastBetween(t, DayOf(now), DayOf(now) + MAX_LOOKAHEAD_DAYS, now, NextStart(t, now))
  {
    hide Scan, DayMatchesCycle;
    if Enabled(t.startTimes) != [] {
      ScanLeast(t, now, 0);
    }
  }

  /** A runnable program has a start among the days scanned. */
  lemma RunnableStarts(t: Timetable, now: nat)
    requires ValidSlots(t.startTimes) && Runnable(t)
    ensures NextStart(t, now).Some?
  {
    hide DayMatchesCycle, NextStart;
    NextIsScan(t, now);
    NowWithinToday(now);
    var e := RunDayWithinAWeek(t.cycle, t.weekDays, DayOf(now));
    var m := Enabled(t.startTimes)[0];
    assert m in Enabled(t.startTimes) && StartsOn(t, e, At(e, m));
    assert At(e, m) > now;
  }

  /** Fourteen days of look-ahead lose nothing: the result is the least start after `now` over the
      whole future, and there is none exactly when the program can never run. */
  lemma NextStartIsMinimum(t: Timetable, now: nat)
    requires ValidSlots(t.startTimes) && t.cycle != 4
    ensures IsNext(CalendarStarts(t), now, NextStart(t, now))
    ensures NextStart(t, now).None? <==>
              Enabled(t.startTimes) == [] || !(0 <= t.cycle <= 3) || (t.cycle == 0 && NoDays(t.weekDays))
  {
    hide NextStart, StartsOn, NoDays;
    var r := NextStart(t, now);
    NextIsScan(t, now);
    if Runnable(t) { RunnableStarts(t, now); }
    forall u | u in CalendarStarts(t) && u > now
      ensures r.Some? && r.value <= u
    {
      var d: nat :| StartsOn(t, d, u);
      if Runnable(t) { ScannedFirst(t, now, r.value, d, u); } else { NeverStarts(t, d, u); }
    }
    if r.Some? && !Runnable(t) {
      var c: nat :| DayOf(now) <= c < DayOf(now) + MAX_LOOKAHEAD_DAYS && StartsOn(t, c, r.value);
      NeverStarts(t, c, r.value);
    }
  }

  /** The least start of the scanned days is the least of all. */
  lemma ScannedFirst(t: Timetable, now: nat, r: int, d: nat, u: int)
    requires ValidSlots(t.startTimes) && StartsOn(t, d, u) && u > now
    requires LeastBetween(t, DayOf(now), DayOf(now) + MAX_LOOKAHEAD_DAYS, now, Some(r))
    ensures r <= u
  {
    hide LeastBetween, StartsOn, DayOf;
    var first, last := DayOf(now), DayOf(now) + MAX_LOOKAHEAD_DAYS;
    NowWithinToday(now);
    if d < first {
      StartWithinDay(t, d, u);
    } else if d < last {
      LeastOfThese(t, first, last, now, r, d, u);
    } else {
      var c := FoundOn(t, first, last, now, r);
      EarlierDayEarlierStart(t, c, r, d, u);
    }
  }

  lemma LeastOfThese(t: Timetable, first: int, last: int, now: int, r: int, d: nat, u: int)
    requires LeastBetween(t, first, last, now, Some(r)) && first <= d < last && StartsOn(t, d, u) && u > now
    ensures r <= u
  {
  }

  lemma FoundOn(t: Timetable, first: int, last: int, now: int, r: int) returns (c: nat)
    requires LeastBetween(t, first, last, now, Some(r))
    ensures first <= c < last && StartsOn(t, c, r)
  {
    hide StartsOn;
    c :| first <= c < last && StartsOn(t, c, r);
  }

  lemma StartWithinDay(t: Timetable, d: nat, u: int)
    requires ValidSlots(t.startTimes) && StartsOn(t, d, u)
    ensures At(d, 0) <= u < At(d + 1, 0)
  {
    hide RunDay;
    var m :| m in Enabled(t.startTimes) && u == (1440 * d + m) * MINUTE;
    assert 0 <= m < 1440;
    assert u == At(d, m);
  }

  // ---- cycle 4: the countdown and its grid -------------------------------

  /** `period_start_to_synchro`: days from `today` to the next run of the grid through `anchor`. */
  function Countdown(anchor: int, n: int, today: int): int
    requires n >= 1
  {
    (n - (today - anchor) % n) % n
  }

  lemma CountdownValue(anchor: int, n: int, today: int)
    requires n >= 1
    ensures var r := (today - anchor) % n;
            0 <= r < n && Countdown(anchor, n, today) == if r == 0 then 0 else n - r
  {
  }

  lemma CountdownOnGrid(anchor: int, n: int, today: int)
    requires n >= 1
    ensures var s := Countdown(anchor, n, today); 0 <= s < n && (today + s - anchor) % n == 0
  {
    CountdownValue(anchor, n, today);
    var e, s := today - anchor, Countdown(anchor, n, today);
    DivMod(e, n);
    if s == 0 {
      EuclidUnique(e + s, n, e / n, 0);
    } else {
      Distribute(e / n, 1, n);
      EuclidUnique(e + s, n, e / n + 1, 0);
    }
  }

  /** The countdown is the least non-negative number of days to a grid day. */
  lemma CountdownLeast(anchor: int, n: int, today: int, d: int)
    requires n >= 1
    ensures var s := Countdown(anchor, n, today);
            && 0 <= s < n
            && (today + s - anchor) % n == 0
            && (0 <= d && (today + d - anchor) % n == 0 ==> s <= d)
  {
    CountdownOnGrid(anchor, n, today);
    CountdownValue(anchor, n, today);
    var e, s := today - anchor, Countdown(anchor, n, today);
    if 0 <= d < s {
      DivMod(e, n);
      EuclidUnique(e + d, n, e / n, e % n + d);
    }
  }

  /** One period holds one run day. */
  lemma CountdownUnique(anchor: int, n: int, today: int, s: int)
    requires n >= 1 && 0 <= s < n && (today + s - anchor) % n == 0
    ensures Countdown(anchor, n, today) == s
  {
    CountdownLeast(anchor, n, today, s);
    var c := Countdown(anchor, n, today);
    var p, q := (today + s - anchor) / n, (today + c - anchor) / n;
    ModZero(today + s - anchor, n);
    ModZero(today + c - anchor, n);
    Distribute(p, -q, n);
    Distribute(q, -q, n);
    MulAtLeast(p - q, n);
  }

  /** Recomputed a day later the countdown has moved down by one, wrapping at zero: no drift. */
  lemma CountdownTicks(anchor: int, n: int, today: int)
    requires n >= 1
    ensures Countdown(anchor, n, today + 1) == (Countdown(anchor, n, today) - 1) % n
  {
    var s := Countdown(anchor, n, today);
    CountdownOnGrid(anchor, n, today);
    if s > 0 {
      EuclidUnique(s - 1, n, 0, s - 1);
      CountdownUnique(anchor, n, today + 1, s - 1);
    } else {
      EuclidUnique(-1, n, -1, n - 1);
      ModShift(today - anchor, 1, n);
      CountdownUnique(anchor, n, today + 1, n - 1);
    }
  }

  /** An anchor picked `s` days ahead, within the period, is stored as exactly `s`. */
  lemma CountdownOfPickedDay(n: int, today: int, s: int)
    requires n >= 1 && 0 <= s < n
    ensures Countdown(today + s, n, today) == s
  {
  }

  /** The day the wrap warning names when no start resolves is the countdown's own run day. */
  lemma WrapWarningDay(anchor: int, n: int, today: int)
    requires n >= 1
    ensures today + (anchor - today) % n == today + Countdown(anchor, n, today)
  {
    var q, r := (anchor - today) / n, (anchor - today) % n;
    DivMod(anchor - today, n);
    Distribute(q, -q, n);
    EuclidUnique(today + r - anchor, n, -q, 0);
    CountdownUnique(anchor, n, today, r);
  }

  lemma OutsideThePeriod(n: int, k: int)
    requires n >= 1
    ensures k < 0 ==> k * n <= -n
    ensures k > 1 ==> k * n >= n + n
    ensures k == 0 ==> k * n == 0
    ensures k == 1 ==> k * n == n
  {
  }

  lemma NextIntervalExists(enabled: seq<int>, n: int, s: int, now: nat)
    requires forall m :: m in enabled ==> 0 <= m < 1440
    requires IntervalPhaseValid(n, s) && enabled != []
    ensures NextIntervalStart(enabled, n, s, now).Some?
  {
    hide FirstStartAfter;
    var base := DayOf(now) + s;
    FirstStartAfterLeast(base + n, enabled, now);
    NowWithinToday(now);
    assert enabled[0] in enabled;
    assert OnGridDay(enabled, base + n, At(base + n, enabled[0]));
  }

  lemma NextIntervalAmongTwo(enabled: seq<int>, n: int, s: int, now: nat, first: int, second: int)
    requires IntervalPhaseValid(n, s) && first == DayOf(now) + s && second == first + n
    ensures var r := NextIntervalStart(enabled, n, s, now);
            LeastOn(enabled, first, now, r) || (LeastOn(enabled, first, now, None) && LeastOn(enabled, second, now, r))
  {
    hide FirstStartAfter, LeastOn;
    FirstStartAfterLeast(first, enabled, now);
    FirstStartAfterLeast(second, enabled, now);
  }

  /** Looking at two run days is enough: the result is the least start after `now` on the whole
      two-sided grid, and exists whenever a slot is enabled. */
  lemma NextIntervalIsGridMinimum(enabled: seq<int>, n: int, s: int, now: nat)
    requires forall m :: m in enabled ==> 0 <= m < 1440
    requires IntervalPhaseValid(n, s)
    ensures IsNext(GridStarts(enabled, DayOf(now) + s, n), now, NextIntervalStart(enabled, n, s, now))
    ensures NextIntervalStart(enabled, n, s, now).None? <==> enabled == []
  {
    var base, r := DayOf(now) + s, NextIntervalStart(enabled, n, s, now);
    NextIntervalAmongTwo(enabled, n, s, now, base, base + n);
    if enabled != [] { NextIntervalExists(enabled, n, s, now); }
    OutsideThePeriod(n, 0);
    OutsideThePeriod(n, 1);
    assert GridDay(base, n, 0) == base && GridDay(base, n, 1) == base + n;
    forall k, u | OnGridDay(enabled, GridDay(base, n, k), u) && u > now
      ensures r.Some? && r.value <= u
    {
      OutsideThePeriod(n, k);
      NextIntervalExists(enabled, n, s, now);
      GridDayLater(enabled, n, s, now, base, base + n, GridDay(base, n, k), u);
    }
  }

  lemma GridDayLater(enabled: seq<int>, n: int, s: int, now: nat, first: int, second: int, day: int, u: int)
    requires forall m :: m in enabled ==> 0 <= m < 1440
    requires IntervalPhaseValid(n, s) && first == DayOf(now) + s && second == first + n
    requires day <= first - n || day == first || day == second || day >= second + n
    requires OnGridDay(enabled, day, u) && u > now
    requires NextIntervalStart(enabled, n, s, now).Some?
    ensures NextIntervalStart(enabled, n, s, now).value <= u
  {
    var r := NextIntervalStart(enabled, n, s, now).value;
    NextIntervalAmongTwo(enabled, n, s, now, first, second);
    NowWithinToday(now);
    assert At(day, 0) <= u < At(day + 1, 0);
    assert day >= first;
    assert r < At(second + 1, 0);
    if LeastOn(enabled, first, now, Some(r)) {
      assert r < At(first + 1, 0);
    }
  }

  lemma SameGrid(enabled: seq<int>, a: int, b: int, q: int, n: int)
    requires b == a + q * n
    ensures GridStarts(enabled, a, n) == GridStarts(enabled, b, n)
  {
    forall k
      ensures GridDay(b, n, k) == GridDay(a, n, q + k)
      ensures GridDay(a, n, k) == GridDay(b, n, k - q)
    {
      Distribute(q, k, n);
      Distribute(q, k - q, n);
    }
    forall u
      ensures GridStart(enabled, a, n, u) <==> GridStart(enabled, b, n, u)
    {
      if k :| OnGridDay(enabled, GridDay(a, n, k), u) {
        assert OnGridDay(enabled, GridDay(b, n, k - q), u);
      }
      if k :| OnGridDay(enabled, GridDay(b, n, k), u) {
        assert OnGridDay(enabled, GridDay(a, n, q + k), u);
      }
    }
  }

  /** A program written with anchor `a` next starts on the grid of `a` itself, on any day. */
  lemma AnchoredProgramNextStart(t: Timetable, anchor: int, now: nat)
    requires ValidSlots(t.startTimes) && t.cycle == 4 && t.periodLength >= 1
    requires t.synchroDay == Countdown(anchor, t.periodLength, DayOf(now))
    ensures IsNext(GridStarts(Enabled(t.startTimes), anchor, t.periodLength), now, NextStart(t, now))
    ensures NextStart(t, now).None? <==> Enabled(t.startTimes) == []
  {
    hide GridStarts, IsNext;
    var n, s, today, enabled := t.periodLength, t.synchroDay, DayOf(now), Enabled(t.startTimes);
    CountdownOnGrid(anchor, n, today);
    NextIntervalIsGridMinimum(enabled, n, s, now);
    ModZero(today + s - anchor, n);
    SameGrid(enabled, anchor, today + s, (today + s - anchor) / n, n);
  }
}
