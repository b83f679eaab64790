/** The program-editor form of `config_flow.py`: prefill, parse, and the write of an untouched form. */
module EditorForm {
  import opened Options
  import opened Bytes
  import opened Calendar
  import opened Modular
  import opened Protocol
  import opened Snapshots
  import opened Patching
  import opened PatchMeaning
  import opened Editor
  import opened Restore
  import opened Packing
  import Schedule

  const MAX_PROGRAM_DURATION_SECONDS := 0xFF_FFFF

  datatype CycleName = Custom | Even | Odd | Odd31 | Periodic

  /** What the form shows and submits. `durations` are minutes to two decimals, in hundredths; `weekDays`
      lists days from Monday = 0. */
  datatype Form = Form(
    name: Frame, cycle: CycleName, weekDays: seq<nat>, periodStart: Date, periodLength: int,
    waterBudget: int, interStationDelay: int, startTimes: seq<string>, durations: seq<int>)

  // ---- durations ------------------------------------------------------------------

  /** Python's `round` of the exact quotient: to nearest, ties to even. */
  function RoundHalfEven(a: int, b: int): int
    requires b > 0
  {
    var q, r := a / b, a % b;
    if 2 * r < b || (2 * r == b && q % 2 == 0) then q else q + 1
  }

  /** No integer is nearer to the quotient, and of two that are as near it is the even one. */
  lemma RoundedToNearest(a: int, b: int)
    requires b > 0
    ensures var r := RoundHalfEven(a, b);
            -b <= 2 * (a - r * b) <= b && (2 * (a - r * b) == b || 2 * (a - r * b) == -b ==> r % 2 == 0)
  {
    var q := a / b;
    DivMod(a, b);
    assert (q + 1) * b == q * b + b;
  }

  /** `_duration_minutes`, in hundredths of a minute. */
  function DurationMinutes(seconds: int): int {
    if seconds % 60 != 0 then RoundHalfEven(seconds * 100, 60) else seconds / 60 * 100
  }

  /** `_duration_seconds`. */
  function DurationSeconds(hundredths: int): (r: Result<int>)
    ensures r.Err? ==> r.error == ValueError
    ensures r.Ok? ==> 0 <= r.value < 256 * 256 * 256
  {
    var seconds := RoundHalfEven(hundredths * 60, 100);
    if 0 <= seconds <= MAX_PROGRAM_DURATION_SECONDS then Ok(seconds) else Err(ValueError)
  }

  /** Two decimals of a minute are off by at most 0.3 seconds, so every storable duration survives the form. */
  lemma DurationSurvives(seconds: int)
    ensures -30 <= DurationMinutes(seconds) * 60 - seconds * 100 <= 30
    ensures 0 <= seconds <= MAX_PROGRAM_DURATION_SECONDS ==> DurationSeconds(DurationMinutes(seconds)) == Ok(seconds)
  {
  }

  // ---- start times ------------------------------------------------------------------

  function Decimal(n: nat): (s: string)
    ensures s != [] && forall c :: c in s ==> '0' <= c <= '9'
  {
    var digit := [(n % 10) as char + '0'];
    if n < 10 then digit else Decimal(n / 10) + digit
  }

  function ParseDecimal(s: string): Option<nat> {
    if s == [] then None
    else
      var c, n := s[|s| - 1], |s| - 1;
      if !('0' <= c <= '9') then None
      else if n == 0 then Some((c - '0') as nat)
      else
        var rest := ParseDecimal(s[..n]);
        if rest.None? then None else Some(rest.value * 10 + (c - '0') as nat)
  }

  lemma {:induction false} DecimalParses(n: nat)
    ensures ParseDecimal(Decimal(n)) == Some(n)
    ensures ParseDecimal(['0'] + Decimal(n)) == Some(n)
  {
    var s, z := Decimal(n), ['0'] + Decimal(n);
    assert (n % 10) as char + '0' - '0' == (n % 10) as char;
    if n >= 10 {
      DecimalParses(n / 10);
      assert s[..|s| - 1] == Decimal(n / 10);
      assert z[..|z| - 1] == ['0'] + Decimal(n / 10);
    } else {
      assert z[..1] == ['0'] && ParseDecimal(['0']) == Some(0);
    }
  }

  /** `f"{n:02d}"`. */
  function TwoDigits(n: nat): (s: string)
    ensures forall c :: c in s ==> '0' <= c <= '9'
  {
    if n < 10 then ['0'] + Decimal(n) else Decimal(n)
  }

  /** `_format_minutes`. */
  function FormatMinutes(minutes: Option<int>): string
    requires minutes.Some? ==> 0 <= minutes.value
  {
    if minutes.None? then [] else TwoDigits(minutes.value / 60) + [':'] + TwoDigits(minutes.value % 60)
  }

  /** Position of the first colon. */
  function Colon(s: string): (k: Option<nat>)
    ensures k.Some? ==> k.value < |s| && s[k.value] == ':'
  {
    if s == [] then None
    else if s[0] == ':' then Some(0)
    else var k := Colon(s[1..]); if k.Some? then Some(k.value + 1) else None
  }

  lemma {:induction false} ColonAfterDigits(a: string, b: string)
    requires forall c :: c in a ==> '0' <= c <= '9'
    ensures Colon(a + [':'] + b) == Some(|a|)
  {
    var s := a + [':'] + b;
    if a != [] {
      assert s[0] == a[0] && a[0] in a;
      assert s[1..] == a[1..] + [':'] + b;
      assert forall c :: c in a[1..] ==> c in a;
      ColonAfterDigits(a[1..], b);
    }
  }

  /** `_parse_optional_time` on the text of a field. */
  function ParseOptionalTime(text: string): (r: Result<Option<int>>)
    ensures r.Err? ==> r.error == ValueError
  {
    if text == [] then Ok(None)
    else
      var k := Colon(text);
      if k.None? then Err(ValueError)
      else
        var hours, minutes := ParseDecimal(text[..k.value]), ParseDecimal(text[k.value + 1..]);
        if hours.None? || minutes.None? || hours.value > 23 || minutes.value > 59 then Err(ValueError)
        else Ok(Some(hours.value * 60 + minutes.value))
  }

  /** Hours and minutes in decimal, a colon between them. */
  ghost predicate TimeText(text: string, hours: nat, minutes: nat) {
    exists a, b :: text == a + [':'] + b && ParseDecimal(a) == Some(hours) && ParseDecimal(b) == Some(minutes)
  }

  lemma {:induction false} DecimalDigits(s: string)
    ensures ParseDecimal(s).Some? ==> forall c :: c in s ==> '0' <= c <= '9'
  {
    if s != [] {
      DecimalDigits(s[..|s| - 1]);
      assert s == s[..|s| - 1] + [s[|s| - 1]];
    }
  }

  lemma TimeRead(a: string, b: string, h: nat, m: nat)
    requires ParseDecimal(a) == Some(h) && ParseDecimal(b) == Some(m)
    ensures ParseOptionalTime(a + [':'] + b) == if h < 24 && m < 60 then Ok(Some(60 * h + m)) else Err(ValueError)
  {
    hide ParseDecimal;
    var text := a + [':'] + b;
    DecimalDigits(a);
    ColonAfterDigits(a, b);
    assert text[..|a|] == a && text[|a| + 1..] == b;
  }

  lemma ReadTime(text: string) returns (h: nat, m: nat)
    requires ParseOptionalTime(text).Ok? && ParseOptionalTime(text).value.Some?
    ensures h < 24 && m < 60 && ParseOptionalTime(text).value == Some(60 * h + m) && TimeText(text, h, m)
  {
    hide ParseDecimal;
    var k := Colon(text).value;
    h, m := ParseDecimal(text[..k]).value, ParseDecimal(text[k + 1..]).value;
    assert text == text[..k] + [':'] + text[k + 1..];
  }

  lemma TimeTextRead(text: string, h: nat, m: nat)
    requires TimeText(text, h, m) && h < 24 && m < 60
    ensures ParseOptionalTime(text) == Ok(Some(60 * h + m))
  {
    hide ParseDecimal, ParseOptionalTime;
    var a, b :| text == a + [':'] + b && ParseDecimal(a) == Some(h) && ParseDecimal(b) == Some(m);
    TimeRead(a, b, h, m);
  }

  /** The times of the day are read, and nothing else. */
  lemma TimeMeans(text: string, value: int)
    ensures ParseOptionalTime(text) == Ok(Some(value)) <==>
              exists h: nat, m: nat :: h < 24 && m < 60 && value == 60 * h + m && TimeText(text, h, m)
  {
    hide ParseOptionalTime, TimeText;
    if ParseOptionalTime(text) == Ok(Some(value)) { var h, m := ReadTime(text); }
    forall h: nat, m: nat | h < 24 && m < 60 && TimeText(text, h, m)
      ensures ParseOptionalTime(text) == Ok(Some(60 * h + m))
    {
      TimeTextRead(text, h, m);
    }
  }

  lemma TwoDigitsParse(n: nat)
    ensures ParseDecimal(TwoDigits(n)) == Some(n)
  {
    DecimalParses(n);
  }

  /** Every start time survives the form. */
  lemma TimeSurvives(minutes: Option<int>)
    requires minutes.Some? ==> 0 <= minutes.value < 1440
    ensures ParseOptionalTime(FormatMinutes(minutes)) == Ok(minutes)
  {
    if minutes.Some? {
      var a, b := TwoDigits(minutes.value / 60), TwoDigits(minutes.value % 60);
      var text := a + [':'] + b;
      ColonAfterDigits(a, b);
      TwoDigitsParse(minutes.value / 60);
      TwoDigitsParse(minutes.value % 60);
      assert text[..|a|] == a && text[|a| + 1..] == b;
    }
  }

  // ---- weekdays ------------------------------------------------------------------------

  /** `mask | (1 << i)`. */
  function SetBit(mask: nat, i: nat): nat {
    if i == 0 then (if mask % 2 == 1 then mask else mask + 1) else 2 * SetBit(mask / 2, i - 1) + mask % 2
  }

  lemma {:induction false} SetBitSets(mask: nat, i: nat, j: nat)
    ensures Schedule.HasDay(SetBit(mask, i), j) <==> j == i || Schedule.HasDay(mask, j)
  {
    if i > 0 && j > 0 {
      SetBitSets(mask / 2, i - 1, j - 1);
      assert SetBit(mask, i) / 2 == SetBit(mask / 2, i - 1);
    }
  }

  /** A mask is determined by its bits. */
  lemma {:induction false} MaskFromBits(a: nat, b: nat)
    requires forall j: nat :: Schedule.HasDay(a, j) <==> Schedule.HasDay(b, j)
    ensures a == b
    decreases a
  {
    assert Schedule.HasDay(a, 0) <==> Schedule.HasDay(b, 0);
    if a > 0 {
      forall j: nat
        ensures Schedule.HasDay(a / 2, j) <==> Schedule.HasDay(b / 2, j)
      {
        assert Schedule.HasDay(a, j + 1) <==> Schedule.HasDay(b, j + 1);
      }
      MaskFromBits(a / 2, b / 2);
    } else if b > 0 {
      var j := SomeBit(b);
      NoBits(j);
    }
  }

  lemma {:induction false} SomeBit(b: nat) returns (j: nat)
    requires b > 0
    ensures Schedule.HasDay(b, j)
  {
    if b % 2 == 1 { j := 0; } else { var i := SomeBit(b / 2); j := i + 1; }
  }

  lemma {:induction false} NoBits(j: nat)
    ensures !Schedule.HasDay(0, j)
  {
    if j > 0 { NoBits(j - 1); }
  }

  lemma {:induction false} SmallMask(mask: nat, width: nat, j: nat)
    requires mask < Power(width) && j >= width
    ensures !Schedule.HasDay(mask, j)
  {
    if width == 0 { NoBits(j); } else { SmallMask(mask / 2, width - 1, j - 1); }
  }

  function Power(n: nat): nat {
    if n == 0 then 1 else 2 * Power(n - 1)
  }

  /** `_weekdays_from_mask`. */
  method WeekdaysFromMask(mask: nat) returns (days: seq<nat>)
    ensures forall i: nat :: i in days <==> i < 7 && Schedule.HasDay(mask, i)
  {
    days := [];
    for index := 0 to 7
      invariant forall i: nat :: i in days <==> i < index && Schedule.HasDay(mask, i)
    {
      hide Schedule.HasDay;
      if Schedule.HasDay(mask, index) {
        days := days + [index];
      }
    }
  }

  /** `_weekdays_mask`. */
  method WeekdaysMask(days: seq<nat>) returns (mask: nat)
    ensures forall i: nat :: Schedule.HasDay(mask, i) <==> i in days
  {
    mask := 0;
    forall i: nat
      ensures !Schedule.HasDay(0, i)
    {
      NoBits(i);
    }
    for n := 0 to |days|
      invariant forall i: nat :: Schedule.HasDay(mask, i) <==> i in days[..n]
    {
      hide Schedule.HasDay, SetBit;
      var next := SetBit(mask, days[n]);
      assert days[..n + 1] == days[..n] + [days[n]];
      forall i: nat
        ensures Schedule.HasDay(next, i) <==> i in days[..n + 1]
      {
        SetBitSets(mask, days[n], i);
      }
      mask := next;
    }
    assert days[..|days|] == days;
  }

  // ---- prefill and parse -------------------------------------------------------------------

  function CycleNameOf(cycle: int): CycleName {
    if cycle == 1 then Even else if cycle == 2 then Odd else if cycle == 3 then Odd31
    else if cycle == 4 then Periodic else Custom
  }

  function CycleOf(name: CycleName): int {
    match name case Custom => 0 case Even => 1 case Odd => 2 case Odd31 => 3 case Periodic => 4
  }

  /** The date field's prefill on day `today`. */
  function PrefilledStart(p: Program, today: nat): (d: Date)
    requires p.periodStart.Some? ==> ValidDate(p.periodStart.value)
    ensures ValidDate(d)
  {
    if p.periodStart.Some? then p.periodStart.value
    else if p.cycle == 4 && Schedule.IntervalPhaseValid(p.periodLength, p.synchroDay) then DateOf(today + p.synchroDay)
    else DateOf(today)
  }

  ghost predicate Prefilled(f: Form, p: Program, numStations: nat, today: nat)
    requires p.periodStart.Some? ==> ValidDate(p.periodStart.value)
    requires forall k :: 0 <= k < |p.startTimes| && p.startTimes[k].Some? ==> 0 <= p.startTimes[k].value
  {
    && f.name == p.name && f.cycle == CycleNameOf(p.cycle) && f.periodStart == PrefilledStart(p, today)
    && f.periodLength == p.periodLength && f.waterBudget == p.waterBudget && f.interStationDelay == p.interStationDelay
    && (p.weekDays >= 0 ==> forall i: nat :: i in f.weekDays <==> i < 7 && Schedule.HasDay(p.weekDays, i))
    && |f.startTimes| == 8 && |f.durations| == numStations
    && (forall k :: 0 <= k < 8 ==> f.startTimes[k] == FormatMinutes(if k < |p.startTimes| then p.startTimes[k] else None))
    && forall k :: 0 <= k < numStations ==> f.durations[k] == DurationMinutes(if k < |p.durations| then p.durations[k] else 0)
  }

  /** `_program_defaults` for a program read from the controller. */
  method ProgramDefaults(p: Program, numStations: nat, today: nat) returns (f: Form)
    requires p.periodStart.Some? ==> ValidDate(p.periodStart.value)
    requires forall k :: 0 <= k < |p.startTimes| && p.startTimes[k].Some? ==> 0 <= p.startTimes[k].value
    requires p.weekDays >= 0
    ensures Prefilled(f, p, numStations, today)
  {
    var days := WeekdaysFromMask(p.weekDays);
    var startTimes: seq<string> := [];
    for slot := 0 to 8
      invariant |startTimes| == slot
      invariant forall k :: 0 <= k < slot ==> startTimes[k] == FormatMinutes(if k < |p.startTimes| then p.startTimes[k] else None)
    {
      hide FormatMinutes;
      startTimes := startTimes + [FormatMinutes(if slot < |p.startTimes| then p.startTimes[slot] else None)];
    }
    var durations: seq<int> := [];
    for station := 0 to numStations
      invariant |durations| == station
      invariant forall k :: 0 <= k < station ==> durations[k] == DurationMinutes(if k < |p.durations| then p.durations[k] else 0)
    {
      hide DurationMinutes;
      durations := durations + [DurationMinutes(if station < |p.durations| then p.durations[station] else 0)];
    }
    f := Form(p.name, CycleNameOf(p.cycle), days, PrefilledStart(p, today), p.periodLength, p.waterBudget,
              p.interStationDelay, startTimes, durations);
  }

  function ParseTimes(texts: seq<string>): (r: Result<seq<Option<int>>>)
    ensures r.Err? ==> r.error == ValueError
    ensures r.Ok? ==> |r.value| == |texts| && forall k :: 0 <= k < |texts| ==> ParseOptionalTime(texts[k]) == Ok(r.value[k])
    ensures (forall k :: 0 <= k < |texts| ==> ParseOptionalTime(texts[k]).Ok?) ==> r.Ok?
  {
    if texts == [] then Ok([])
    else
      var first, rest := ParseOptionalTime(texts[0]), ParseTimes(texts[1..]);
      if first.Ok? && rest.Ok? then Ok([first.value] + rest.value) else Err(ValueError)
  }

  function ParseDurations(fields: seq<int>): (r: Result<seq<int>>)
    ensures r.Err? ==> r.error == ValueError
    ensures r.Ok? ==> |r.value| == |fields| && forall k :: 0 <= k < |fields| ==> DurationSeconds(fields[k]) == Ok(r.value[k])
    ensures (forall k :: 0 <= k < |fields| ==> DurationSeconds(fields[k]).Ok?) ==> r.Ok?
  {
    if fields == [] then Ok([])
    else
      var first, rest := DurationSeconds(fields[0]), ParseDurations(fields[1..]);
      if first.Ok? && rest.Ok? then Ok([first.value] + rest.value) else Err(ValueError)
  }

  /** `_countdown_for_anchor`. */
  function CountdownForAnchor(cycle: int, start: Date, periodLength: int, today: nat): Result<int>
    requires ValidDate(start)
  {
    if cycle != 4 then Ok(0)
    else if periodLength < 1 then Err(ValueError)
    else Ok(Schedule.Countdown(DayNumber(start), periodLength, DayNumber(DateOf(today))))
  }

  /** The anchor of an interval program becomes the days to the next day of its grid; other programs have none. */
  lemma CountdownMeans(cycle: int, start: Date, periodLength: int, today: nat)
    requires ValidDate(start)
    ensures var r := CountdownForAnchor(cycle, start, periodLength, today);
            && (r.Err? <==> cycle == 4 && periodLength < 1) && (r.Err? ==> r.error == ValueError)
            && (r.Ok? && cycle == 4 ==>
                  0 <= r.value < periodLength && (today + r.value - DayNumber(start)) % periodLength == 0)
            && (r.Ok? && cycle != 4 ==> r.value == 0)
  {
    DayNumberOfDate(today);
    if cycle == 4 && periodLength >= 1 { Schedule.CountdownOnGrid(DayNumber(start), periodLength, today); }
  }

  /** `p` is the program that the form submits. */
  ghost predicate Submitted(f: Form, p: Program, today: nat)
    requires ValidDate(f.periodStart)
  {
    && ParseTimes(f.startTimes) == Ok(p.startTimes) && ParseDurations(f.durations) == Ok(p.durations)
    && CountdownForAnchor(CycleOf(f.cycle), f.periodStart, f.periodLength, today) == Ok(p.synchroDay)
    && p.weekDays >= 0 && (forall i: nat :: Schedule.HasDay(p.weekDays, i) <==> i in f.weekDays)
    && p == Program(f.name, f.interStationDelay, f.waterBudget, CycleOf(f.cycle), p.weekDays, f.periodLength,
                    p.synchroDay, Some(f.periodStart), None, p.startTimes, p.durations)
  }

  /** `_parse_program_input` on a submitted form. */
  method ParseProgramInput(f: Form, today: nat) returns (r: Result<Program>)
    requires ValidDate(f.periodStart)
    ensures r.Ok? <==> ParseTimes(f.startTimes).Ok? && ParseDurations(f.durations).Ok?
                       && CountdownForAnchor(CycleOf(f.cycle), f.periodStart, f.periodLength, today).Ok?
    ensures r.Ok? ==> Submitted(f, r.value, today)
    ensures r.Err? ==> r.error == ValueError
  {
    var times, cycle := ParseTimes(f.startTimes), CycleOf(f.cycle);
    var mask := WeekdaysMask(f.weekDays);
    var countdown := CountdownForAnchor(cycle, f.periodStart, f.periodLength, today);
    var durations := ParseDurations(f.durations);
    if times.Err? || countdown.Err? || durations.Err? {
      return Err(ValueError);
    }
    r := Ok(Program(f.name, f.interStationDelay, f.waterBudget, cycle, mask, f.periodLength, countdown.value,
                    Some(f.periodStart), None, times.value, durations.value));
  }

  // ---- the untouched form -------------------------------------------------------------------

  /** The program part of a block is in the form the editor itself would store. */
  ghost predicate Canonical(b: seq<NFrame>) {
    && StandardBlock(b)
    && (exists name :: StoresName(b, name))
    && b[2][8] <= 4 && b[2][9] < 128 && b[2][10] >= 1
    && (if b[2][8] == 4 then b[2][11] < b[2][10] else b[2][11] == 0)
    && forall k :: 0 <= k < 8 ==> Word16(b[3], 4 + 2 * k) <= DISABLED_START_TIME
  }

  ghost predicate StoresName(b: seq<NFrame>, name: Frame)
    requires StandardBlock(b)
  {
    NulFree(name) && |name| <= 31 && b[0][4..20] == Pad(name, 31)[..16] && b[1][4..20] == Pad(name, 31)[16..] + [0]
  }

  /** `p` says what block `b` stores, durations up to station `w`. */
  ghost predicate Mirrors(p: Program, b: seq<NFrame>, w: int)
    requires StandardBlock(b) && 1 <= w <= 12
  {
    var d := DecodeBlock(b);
    && p.name == d.name && p.interStationDelay == d.interStationDelay && p.waterBudget == d.waterBudget
    && p.cycle == d.cycle && p.weekDays == d.weekDays && p.periodLength == d.periodLength && p.synchroDay == d.synchroDay
    && p.startTimes == d.startTimes && |p.durations| == 12
    && forall s :: 0 <= s < w ==> p.durations[s] == d.durations[s]
  }

  lemma NameChange(b: seq<NFrame>, k: int, o: int)
    requires Canonical(b) && 0 <= k < 7 && 0 <= o < |b[k]|
    ensures var c := Name(DecodeBlock(b).name);
            ChangeOk(c, 12) && (Effect(c, k, o).Some? ==> Effect(c, k, o).value == b[k][o])
  {
    hide Pad;
    var name :| StoresName(b, name);
    NameHalves(name, 0);
    assert DecodeBlock(b).name == name;
    if k == 0 && o >= 4 { assert b[0][o] == b[0][4..20][o - 4]; }
    if k == 1 && 4 <= o < 19 { assert b[1][o] == b[1][4..20][o - 4]; }
  }

  lemma HeaderChange(b: seq<NFrame>, c: Change, k: int, o: int)
    requires Canonical(b) && 0 <= k < 7 && 0 <= o < |b[k]|
    requires var d := DecodeBlock(b);
             c in {InterStationDelay(d.interStationDelay), WaterBudget(d.waterBudget), Cycle(d.cycle),
                   WeekDays(d.weekDays), PeriodLength(d.periodLength), SynchroDay(d.synchroDay)}
    ensures ChangeOk(c, 12) && (Effect(c, k, o).Some? ==> Effect(c, k, o).value == b[k][o])
  {
    BigEndian(0, b[2], 4);
    BigEndian(0, b[2], 6);
    assert b[2][4..6] == [b[2][4], b[2][5]] && b[2][6..8] == [b[2][6], b[2][7]];
  }

  lemma TimesChange(b: seq<NFrame>, k: int, o: int)
    requires Canonical(b) && 0 <= k < 7 && 0 <= o < |b[k]|
    ensures var c := StartTimes(DecodeBlock(b).startTimes);
            ChangeOk(c, 12) && (Effect(c, k, o).Some? ==> Effect(c, k, o).value == b[k][o])
  {
    var slots := DecodeBlock(b).startTimes;
    forall q | 0 <= q < 8
      ensures slots[q] == StartSlot(b[3], q)
    {
    }
    if k == 3 && o >= 4 {
      var q := (o - 4) / 2;
      BigEndian(0, b[3], 4 + 2 * q);
      assert SlotMinutes(slots, q) == Word16(b[3], 4 + 2 * q);
      assert b[3][o] == b[3][4 + 2 * q..6 + 2 * q][(o - 4) % 2];
    }
  }

  lemma DurationByte(f: NFrame, q: nat, o: int)
    requires 4 + 3 * q <= o < 7 + 3 * q <= |f|
    ensures Be24(Word24(f, 4 + 3 * q))[o - 4 - 3 * q] == f[o]
  {
    BigEndian(0, f, 4 + 3 * q);
    assert f[o] == f[4 + 3 * q..7 + 3 * q][o - 4 - 3 * q];
  }

  lemma DurationsOk(durations: seq<int>, w: int)
    requires |durations| == 12 && 1 <= w <= 12 && forall s :: 0 <= s < w ==> 0 <= durations[s] <= 0xFF_FFFF
    ensures var m := DurationChanges(durations, w);
            && ChangeOk(StationDurations(m), 12) && ChangeOk(StationDurations(m), w)
            && forall s :: s in m <==> 1 <= s <= w
    ensures forall s :: 1 <= s <= w ==> DurationChanges(durations, w)[s] == durations[s - 1]
  {
  }

  lemma StationByte(b: seq<NFrame>, k: int, q: nat, o: int)
    requires StandardBlock(b) && 4 <= k < 7 && q < StationsIn(k) && q == (o - 4) / 3 && 4 <= o < |b[k]|
    ensures 0 <= StationAt(k, q) - 1 < 12
    ensures var v := DecodeBlock(b).durations[StationAt(k, q) - 1]; 0 <= v < 0x100_0000 && Be24(v)[(o - 4) % 3] == b[k][o]
  {
    hide DecodeBlock, Be24, Word24;
    var s := StationAt(k, q);
    assert o - 4 - 3 * q == (o - 4) % 3;
    assert 4 + (s - 1) / 5 == k && (s - 1) % 5 == q;
    DurationAt(b, s - 1);
    StandardChunk(b, k, q);
    DurationByte(b[k], q, o);
  }

  lemma DurationEffect(m: map<int, int>, k: int, o: int)
    requires ChangeOk(StationDurations(m), 12) && Effect(StationDurations(m), k, o).Some?
    ensures 4 <= o && (o - 4) / 3 < StationsIn(k) && 4 <= k < 7 && StationAt(k, (o - 4) / 3) in m
    ensures var v := m[StationAt(k, (o - 4) / 3)];
            0 <= v < 0x100_0000 && Effect(StationDurations(m), k, o).value == Be24(v)[(o - 4) % 3]
  {
  }

  lemma DurationChange(b: seq<NFrame>, durations: seq<int>, w: int, k: int, o: int)
    requires StandardBlock(b) && |durations| == 12 && 1 <= w <= 12 && 0 <= k < 7 && 0 <= o < |b[k]|
    requires forall s :: 0 <= s < w ==> durations[s] == DecodeBlock(b).durations[s] && 0 <= durations[s] <= 0xFF_FFFF
    ensures var c := StationDurations(DurationChanges(durations, w));
            ChangeOk(c, 12) && ChangeOk(c, w) && (Effect(c, k, o).Some? ==> Effect(c, k, o).value == b[k][o])
  {
    hide DecodeBlock, DurationChanges, Be24, Effect, StandardBlock, ReadableBlock;
    DurationsOk(durations, w);
    var m := DurationChanges(durations, w);
    if Effect(StationDurations(m), k, o).Some? {
      DurationEffect(m, k, o);
      StationByte(b, k, (o - 4) / 3, o);
    }
  }

  lemma MirroredDurations(b: seq<NFrame>, p: Program, w: int)
    requires Canonical(b) && 1 <= w <= 12 && Mirrors(p, b, w)
    ensures StandardBlock(b) && |p.durations| == 12
    ensures forall s :: 0 <= s < w ==> p.durations[s] == DecodeBlock(b).durations[s] && 0 <= p.durations[s] <= 0xFF_FFFF
  {
  }

  lemma StandardChunk(b: seq<NFrame>, k: int, q: int)
    requires StandardBlock(b) && 0 <= k < 7 && 0 <= q < StationsIn(k)
    ensures 7 + 3 * q <= |b[k]|
  {
  }

  /** Writing back what a canonical block says changes none of its bytes. */
  lemma SelfPatch(b: seq<NFrame>, p: Program, w: int)
    requires Canonical(b) && 1 <= w <= 12 && Mirrors(p, b, w)
    ensures AllOk(BackupChanges(p, w), w) && AllOk(BackupChanges(p, w), 12)
    ensures PatchedBlock(b, BackupChanges(p, w)) == b
  {
    hide DecodeBlock, Effect, Overwrite, DurationChanges;
    var cs := BackupChanges(p, w);
    SelfChange(b, p, w, 0, 4);
    forall k, o | 0 <= k < 7 && 0 <= o < |b[k]|
      ensures EffectOf(cs, k, o).Some? ==> EffectOf(cs, k, o).value == b[k][o]
    {
      SelfChange(b, p, w, k, o);
      EffectOfMember(cs, k, o);
    }
    var r := PatchedBlock(b, cs);
    forall k | 0 <= k < 7
      ensures r[k] == b[k]
    {
      assert r[k] == Overwrite(b[k], cs, k);
    }
  }

  lemma SelfChange(b: seq<NFrame>, p: Program, w: int, k: int, o: int)
    requires Canonical(b) && 1 <= w <= 12 && Mirrors(p, b, w) && 0 <= k < 7 && 0 <= o < |b[k]|
    ensures AllOk(BackupChanges(p, w), w) && AllOk(BackupChanges(p, w), 12)
    ensures forall c :: c in BackupChanges(p, w) && Effect(c, k, o).Some? ==> Effect(c, k, o).value == b[k][o]
  {
    CanonicalBytes(b);
    hide DecodeBlock, Effect, Canonical, DurationChanges, StandardBlock, ReadableBlock, PhaseOk;
    var d := DecodeBlock(b);
    var cs := BackupChanges(p, w);
    forall j | 0 <= j < 9
      ensures ChangeOk(cs[j], w) && ChangeOk(cs[j], 12) && (Effect(cs[j], k, o).Some? ==> Effect(cs[j], k, o).value == b[k][o])
    {
      if j == 0 { NameChange(b, k, o); }
      else if j == 7 { TimesChange(b, k, o); }
      else if j == 8 {
        MirroredDurations(b, p, w);
        DurationChange(b, p.durations, w, k, o);
      }
      else { HeaderChange(b, cs[j], k, o); }
    }
  }

  lemma FormMask(weekDays: nat, days: seq<nat>, mask: nat)
    requires weekDays < 128
    requires forall i: nat :: i in days <==> i < 7 && Schedule.HasDay(weekDays, i)
    requires forall i: nat :: Schedule.HasDay(mask, i) <==> i in days
    ensures mask == weekDays
  {
    forall i: nat
      ensures Schedule.HasDay(mask, i) <==> Schedule.HasDay(weekDays, i)
    {
      assert Power(7) == 128;
      if i >= 7 { SmallMask(weekDays, 7, i); }
    }
    MaskFromBits(mask, weekDays);
  }

  lemma FormCountdown(p: Program, today: nat)
    requires p.periodStart.None? && p.cycle == 4 && Schedule.IntervalPhaseValid(p.periodLength, p.synchroDay)
    ensures Schedule.Countdown(DayNumber(PrefilledStart(p, today)), p.periodLength, DayNumber(DateOf(today))) == p.synchroDay
  {
    hide DayNumber, DateOf, Schedule.Countdown;
    DayNumberOfDate(today);
    DayNumberOfDate(today + p.synchroDay);
    Schedule.CountdownOfPickedDay(p.periodLength, today, p.synchroDay);
  }

  lemma FormTimes(slots: seq<Option<int>>, texts: seq<string>)
    requires |slots| == 8 && |texts| == 8 && Schedule.ValidSlots(slots)
    requires forall k :: 0 <= k < 8 ==> texts[k] == FormatMinutes(slots[k])
    ensures ParseTimes(texts) == Ok(slots)
  {
    hide ParseOptionalTime, FormatMinutes, ParseTimes;
    forall k | 0 <= k < 8
      ensures ParseOptionalTime(texts[k]) == Ok(slots[k])
    {
      TimeSurvives(slots[k]);
    }
    assert ParseTimes(texts).Ok?;
    assert ParseTimes(texts).value == slots;
  }

  lemma FormDurations(durations: seq<int>, fields: seq<int>)
    requires |fields| <= |durations| && forall k :: 0 <= k < |durations| ==> 0 <= durations[k] <= 0xFF_FFFF
    requires forall k :: 0 <= k < |fields| ==> fields[k] == DurationMinutes(durations[k])
    ensures ParseDurations(fields) == Ok(durations[..|fields|])
  {
    hide DurationMinutes, DurationSeconds, ParseDurations;
    forall k | 0 <= k < |fields|
      ensures DurationSeconds(fields[k]) == Ok(durations[k])
    {
      DurationSurvives(durations[k]);
    }
    assert ParseDurations(fields).Ok?;
    assert ParseDurations(fields).value == durations[..|fields|];
  }

  /** A decoded program the editor can show and store without loss. */
  ghost predicate Presentable(d: Program) {
    && d.periodStart.None? && |d.name| <= 31 && 0 <= d.cycle <= 4 && 0 <= d.weekDays < 128 && 1 <= d.periodLength <= 255
    && (if d.cycle == 4 then Schedule.IntervalPhaseValid(d.periodLength, d.synchroDay) else d.synchroDay == 0)
    && 0 <= d.synchroDay <= 255 && 0 <= d.waterBudget <= 0xFFFF && 0 <= d.interStationDelay <= 0xFFFF
    && |d.startTimes| == 8 && Schedule.ValidSlots(d.startTimes)
    && |d.durations| == 12 && forall k :: 0 <= k < 12 ==> 0 <= d.durations[k] <= 0xFF_FFFF
  }

  lemma CanonicalProgram(b: seq<NFrame>)
    requires Canonical(b)
    ensures Presentable(DecodeBlock(b))
  {
    var name :| StoresName(b, name);
    NameHalves(name, 0);
  }

  /** The parser gives back the program that prefilled the form, up to its date fields and the width. */
  lemma UntouchedParses(b: seq<NFrame>, width: int, today: nat, f: Form, parsed: Program)
    requires Canonical(b) && 1 <= width <= 12
    requires Schedule.ValidSlots(DecodeBlock(b).startTimes) && Prefilled(f, DecodeBlock(b), width, today)
    requires ValidDate(f.periodStart) && Submitted(f, parsed, today)
    ensures var d := DecodeBlock(b);
            parsed == d.(periodStart := Some(PrefilledStart(d, today)), controllerDate := None, durations := d.durations[..width])
  {
    CanonicalBytes(b);
    hide DecodeBlock, Canonical, ParseTimes, ParseDurations, FormatMinutes, DurationMinutes, Schedule.HasDay,
         Schedule.Countdown, PrefilledStart, DayNumber, DateOf, Schedule.IntervalPhaseValid, Schedule.ValidSlots;
    var d := DecodeBlock(b);
    CanonicalProgram(b);
    FormMask(d.weekDays, f.weekDays, parsed.weekDays);
    FormTimes(d.startTimes, f.startTimes);
    FormDurations(d.durations, f.durations);
    if d.cycle == 4 { FormCountdown(d, today); }
  }

  /** Normalising what the untouched form submits gives the program back, later stations zeroed. */
  lemma NormalizedForm(d: Program, width: int, today: nat, parsed: Program)
    requires Presentable(d) && 1 <= width <= 12
    requires parsed == d.(periodStart := Some(PrefilledStart(d, today)), controllerDate := None, durations := d.durations[..width])
    ensures NormalizeForWrite(parsed, DateOf(today), 12) == Ok(parsed.(durations := PadDurations(d.durations[..width], 12)))
  {
    hide Schedule.Countdown, PrefilledStart, DateOf, DayNumber;
    if d.cycle == 4 { FormCountdown(d, today); }
    assert PadSlots(d.startTimes) == d.startTimes;
    assert Storable(parsed, 12);
  }

  lemma UntouchedMirrors(b: seq<NFrame>, width: int, today: nat, parsed: Program)
    requires Canonical(b) && 1 <= width <= 12
    requires var d := DecodeBlock(b);
             parsed == d.(periodStart := Some(PrefilledStart(d, today)), controllerDate := None, durations := d.durations[..width])
    ensures var n := NormalizeForWrite(parsed, DateOf(today), 12);
            n.Ok? && Mirrors(n.value, b, width)
  {
    CanonicalBytes(b);
    CanonicalProgram(b);
    hide DecodeBlock, Canonical, PrefilledStart, DateOf, NormalizeForWrite, StandardBlock, ReadableBlock;
    NormalizedForm(DecodeBlock(b), width, today, parsed);
  }

  /** Opening the editor on a canonical program and saving it unchanged: the form is prefilled and parsed, and what
      it submits normalises to a program whose changes change nothing. */
  method SaveUntouched(b: seq<NFrame>, width: int, today: nat)
    returns (form: Form, parsed: Program, n: Program, cs: seq<Change>)
    requires Canonical(b) && 1 <= width <= 12
    ensures Schedule.ValidSlots(DecodeBlock(b).startTimes) && Prefilled(form, DecodeBlock(b), width, today)
    ensures ValidDate(form.periodStart) && Submitted(form, parsed, today)
    ensures NormalizeForWrite(parsed, DateOf(today), 12) == Ok(n) && cs == BackupChanges(n, width)
    ensures AllOk(cs, width) && AllOk(cs, 12) && PatchedBlock(b, cs) == b && PhaseOk(b)
  {
    hide DecodeBlock, NormalizeForWrite, Mirrors, Prefilled, Submitted, ParseTimes, ParseDurations, CountdownForAnchor,
         PatchedBlock, AllOk;
    CanonicalProgram(b);
    CanonicalBytes(b);
    hide Canonical;
    var program := DecodeBlock(b);
    form := ProgramDefaults(program, width, today);
    FormParses(b, form, width, today);
    var submitted := ParseProgramInput(form, today);
    parsed := submitted.value;
    UntouchedChanges(b, width, today, form, parsed);
    n := NormalizeForWrite(parsed, DateOf(today), 12).value;
    cs := BackupChanges(n, width);
  }

  /** Whatever the untouched form of a canonical block submits normalises, and its changes change nothing. */
  lemma UntouchedChanges(b: seq<NFrame>, width: int, today: nat, f: Form, parsed: Program)
    requires Canonical(b) && 1 <= width <= 12
    requires Schedule.ValidSlots(DecodeBlock(b).startTimes) && Prefilled(f, DecodeBlock(b), width, today)
    requires ValidDate(f.periodStart) && Submitted(f, parsed, today)
    ensures NormalizeForWrite(parsed, DateOf(today), 12).Ok?
    ensures var cs := BackupChanges(NormalizeForWrite(parsed, DateOf(today), 12).value, width);
            AllOk(cs, width) && AllOk(cs, 12) && PatchedBlock(b, cs) == b && PhaseOk(b)
  {
    CanonicalBytes(b);
    hide DecodeBlock, NormalizeForWrite, Mirrors, Prefilled, Submitted, PatchedBlock, AllOk, Canonical, BackupChanges;
    UntouchedParses(b, width, today, f, parsed);
    UntouchedMirrors(b, width, today, parsed);
    SelfPatch(b, NormalizeForWrite(parsed, DateOf(today), 12).value, width);
  }

  lemma CanonicalBytes(b: seq<NFrame>)
    requires Canonical(b)
    ensures StandardBlock(b) && ReadableBlock(b) && PhaseOk(b)
  {
  }

  lemma FormParses(b: seq<NFrame>, f: Form, width: int, today: nat)
    requires Canonical(b) && 1 <= width <= 12
    requires Schedule.ValidSlots(DecodeBlock(b).startTimes) && Prefilled(f, DecodeBlock(b), width, today)
    ensures ValidDate(f.periodStart) && ParseTimes(f.startTimes).Ok? && ParseDurations(f.durations).Ok?
    ensures CountdownForAnchor(CycleOf(f.cycle), f.periodStart, f.periodLength, today).Ok?
  {
    CanonicalBytes(b);
    hide DecodeBlock, Canonical, ParseTimes, ParseDurations, FormatMinutes, DurationMinutes, Schedule.HasDay,
         Schedule.Countdown;
    CanonicalProgram(b);
    FormTimes(DecodeBlock(b).startTimes, f.startTimes);
    FormDurations(DecodeBlock(b).durations, f.durations);
  }

  lemma SubmittedDate(f: Form, parsed: Program, today: nat)
    requires ValidDate(f.periodStart) && Submitted(f, parsed, today)
    ensures parsed.periodStart == Some(f.periodStart)
  {
  }

  /** So the snapshot editor, asked to store what the untouched form of a canonical block submits, has nothing to
      send and expects nothing to change; it refuses exactly when it does not know the hidden slots. */
  lemma UntouchedSendsNothing(s: Snapshot, i: int, width: int, today: nat, f: Form, parsed: Program)
    requires IsSnapshot(s, s.frames) && 0 <= i < 3 && 1 <= width <= 12
    requires |s.blocks| == |s.programs| == 3 && Canonical(s.blocks[i])
    requires Schedule.ValidSlots(s.programs[i].startTimes) && s.programs[i].periodStart.None?
    requires Prefilled(f, s.programs[i], width, today) && ValidDate(f.periodStart) && Submitted(f, parsed, today)
    ensures NormalizeForWrite(parsed, DateOf(today), 12).Ok?
    ensures var cs := BackupChanges(NormalizeForWrite(parsed, DateOf(today), 12).value, width);
            && PatchError(s, i, cs, width) == (if KnownExtras(s.extras) then None else Some(InvalidSnapshot))
            && (KnownExtras(s.extras) ==> PatchYields(s, i, cs, width, [], s))
  {
    hide PatchedBlock, DecodeBlock, KnownExtras, IsSnapshot, NormalizeForWrite, Prefilled, Submitted, PatchYields, PatchError,
         BackupChanges, Canonical;
    SnapshotBlock(s, i);
    SubmittedDate(f, parsed, today);
    UntouchedChanges(s.blocks[i], width, today, f, parsed);
    var cs := BackupChanges(NormalizeForWrite(parsed, DateOf(today), 12).value, width);
    UntouchedAccepted(s, i, cs, width);
    if KnownExtras(s.extras) { UnchangedPatch(s, i, cs, width); }
  }

  lemma UntouchedAccepted(s: Snapshot, i: int, cs: seq<Change>, width: int)
    requires IsSnapshot(s, s.frames) && |s.blocks| == |s.programs| == 3 && 0 <= i < 3 && 1 <= width <= 12
    requires Canonical(s.blocks[i]) && AllOk(cs, width) && AllOk(cs, 12) && PatchedBlock(s.blocks[i], cs) == s.blocks[i]
    ensures PatchError(s, i, cs, width) == if KnownExtras(s.extras) then None else Some(InvalidSnapshot)
  {
    hide PatchedBlock, DecodeBlock, KnownExtras, HasBlock, IsExtras;
    CanonicalProgram(s.blocks[i]);
    CanonicalBytes(s.blocks[i]);
  }
}
