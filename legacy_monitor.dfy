/**
 * The global state of kaco2pvo.py and `addReading`: the running totals for the status window
 * (posted every five minutes) and for the day (posted once after 23:45), the peak generated
 * power and the temperature range. The clock (`datetime.now()`) and the outcome of each post
 * are parameters.
 */
module LegacyMonitor {
  import opened Common
  import opened Numbers
  import opened CivilTime
  import opened Tracking
  import opened LegacyParser

  /** PVO_STATUS_INTERVAL: a status goes out on minutes divisible by this. */
  const StatusInterval: int := 5
  /** SAMPLE_TIME: hours between two inverter readings (ten seconds). */
  const SampleTime: real := 10.0 / 3600.0
  /** PV_DAILY_UPLOAD_TIME_HOUR and _MIN: the end-of-day summary goes out after 23:45. */
  const DailyUploadHour: int := 23
  const DailyUploadMinute: int := 45
  /** `sunriseHour`: a run started at or after this hour has missed part of the day. */
  const SunriseHour: int := 9
  /** Initial `minTemp` and `maxTemp`, chosen so the first reading replaces both. */
  const MinTempStart: real := 100.0
  const MaxTempStart: real := -100.0

  /** Python's `int()` on a float: truncation toward zero. */
  function Trunc(x: real): (n: int)
    ensures x >= 0.0 ==> 0 <= n && n as real <= x < n as real + 1.0
    ensures x < 0.0 ==> n <= 0 && n as real - 1.0 < x <= n as real
  {
    if x >= 0.0 then x.Floor else -((-x).Floor)
  }

  /** `totalGen`, `totalAmps`, `totalVolts`, `totalReadings`: the current status window. */
  datatype Window = Window(gen: real, amps: real, volts: real, readings: int)

  const EmptyWindow: Window := Window(0.0, 0.0, 0.0, 0)

  /**
   * `dailyGen`, `dailyEnergy`, `dailyReadings`, `peakGen` with `peakTime`, `minTemp` and
   * `maxTemp`: the totals of the current day.
   */
  datatype Daily = Daily(gen: real, energy: real, readings: int, peak: Stamped<DateTime>, temps: Range)

  /** The day totals as the end-of-day reset leaves them at time `now`. */
  function FreshDaily(now: DateTime): Daily
  {
    Daily(0.0, 0.0, 0, Stamped(0.0, now), Range(MinTempStart, MaxTempStart))
  }

  datatype MonitorState = MonitorState(
    window: Window,
    lastStatus: DateTime,
    daily: Daily,
    lastOutput: DateTime,
    fullDaysReadings: bool)

  /** Reading counts never go negative. */
  predicate Inv(st: MonitorState)
  {
    st.window.readings >= 0 && st.daily.readings >= 0
  }

  /** Whether a run started at `startup` sees the whole day (corrected; see FullDayAsWritten). */
  function FullDay(startup: DateTime): bool
  {
    startup.hour < SunriseHour
  }

  /** The globals once the serial loop starts at `startup`. */
  function Initial(startup: DateTime): (st: MonitorState)
    ensures Inv(st) && st.window.readings == 0 && st.daily.readings == 0
    ensures st.fullDaysReadings <==> startup.hour < SunriseHour
    ensures st.lastStatus == Min && st.lastOutput == Min
  {
    MonitorState(EmptyWindow, Min, FreshDaily(startup), Min, FullDay(startup))
  }

  function Gen(x: Reading): real { Value(x.generatorPower) }
  function Temperature(x: Reading): real { Value(x.unitTemperature) }

  /** The first part of `addReading`: the reading joins the window and the day. */
  function Accumulate(st: MonitorState, x: Reading, now: DateTime): (r: MonitorState)
    requires Inv(st)
    ensures Inv(r)
    ensures r.window.readings == st.window.readings + 1 && r.daily.readings == st.daily.readings + 1
    ensures r.lastStatus == st.lastStatus && r.lastOutput == st.lastOutput
    ensures r.fullDaysReadings == st.fullDaysReadings
  {
    var gen := Gen(x);
    st.(window := Window(st.window.gen + gen, st.window.amps + Value(x.generatorCurrent),
                         st.window.volts + Value(x.generatorVoltage), st.window.readings + 1),
        daily := Daily(st.daily.gen + gen, st.daily.energy + gen * SampleTime, st.daily.readings + 1,
                       TrackPeak(st.daily.peak, Stamped(gen, now)),
                       TrackRange(st.daily.temps, Temperature(x))))
  }

  /** A status is due on a minute divisible by five that differs from the last status's minute. */
  predicate StatusDue(lastStatus: DateTime, now: DateTime)
  {
    now.minute % StatusInterval == 0 && lastStatus.minute != now.minute
  }

  /**
   * The parameters of `postPVstatus`: time, energy generated today (Wh), average power
   * generated over the window, temperature and average voltage. Energy and power used are
   * always 0 and are not carried.
   */
  datatype StatusUpload = StatusUpload(time: DateTime, energyGenerated: real, powerGenerated: real,
                                       temperature: real, voltage: real)

  datatype StatusStep = StatusStep(state: MonitorState, upload: Option<StatusUpload>)

  /**
   * The status part of `addReading`. When due it posts the window averages; lastStatus
   * moves to `now` whether or not the post succeeds, the window is emptied only on success,
   * and nothing about the day changes.
   */
  function StatusGate(st: MonitorState, now: DateTime, temperature: real, posted: bool): (r: StatusStep)
    requires Inv(st) && st.window.readings > 0
    ensures Inv(r.state)
    ensures r.upload.Some? <==> StatusDue(st.lastStatus, now)
    ensures r.state.daily == st.daily && r.state.lastOutput == st.lastOutput
    ensures r.state.fullDaysReadings == st.fullDaysReadings
    ensures r.upload.None? ==> r.state == st
    ensures r.upload.Some? ==>
      && r.state.lastStatus == now
      && r.state.window == (if posted then EmptyWindow else st.window)
      && r.upload.value.time == now && r.upload.value.temperature == temperature
      && r.upload.value.energyGenerated == st.daily.energy
      && r.upload.value.powerGenerated * st.window.readings as real == st.window.gen
      && r.upload.value.voltage * st.window.readings as real == st.window.volts
  {
    if StatusDue(st.lastStatus, now) then
      var n := st.window.readings as real;
      var upload := StatusUpload(now, st.daily.energy, st.window.gen / n, temperature, st.window.volts / n);
      StatusStep(st.(lastStatus := now, window := if posted then EmptyWindow else st.window), Some(upload))
    else
      StatusStep(st, None)
  }

  /**
   * The end-of-day summary is due once the clock is past 23:45 on a calendar date later than
   * that of the last summary (corrected; see DailyDueAsWritten).
   */
  predicate DailyDue(lastOutput: DateTime, now: DateTime)
  {
    ClockBefore(AtClock(now, DailyUploadHour, DailyUploadMinute), now) && DateBefore(lastOutput, now)
  }

  /**
   * The parameters of `postPVoutput` that are not constants: date, energy generated, peak
   * power with its time, condition, minimum and maximum temperature and comment.
   */
  datatype OutputUpload = OutputUpload(date: DateTime, generated: int, peakPower: int, peakTime: DateTime,
                                       condition: string, minTemp: real, maxTemp: real, comment: string)

  datatype DailyStep = DailyStep(state: MonitorState, upload: Option<OutputUpload>)

  /**
   * The end-of-day part of `addReading`. When due it posts the day's mean power times 24,
   * the peak, the temperature range and a comment flagging a partial day; on success the
   * day totals restart. In both cases the next day counts as a full one.
   */
  function DailyGate(st: MonitorState, now: DateTime, posted: bool): (r: DailyStep)
    requires Inv(st) && st.daily.readings > 0
    ensures Inv(r.state)
    ensures r.upload.Some? <==> DailyDue(st.lastOutput, now)
    ensures r.state.window == st.window && r.state.lastStatus == st.lastStatus
    ensures r.upload.None? ==> r.state == st
    ensures r.upload.Some? ==>
      && r.state.fullDaysReadings
      && (if posted then r.state.daily == FreshDaily(now) && r.state.lastOutput == now
          else r.state.daily == st.daily && r.state.lastOutput == st.lastOutput)
      && r.upload.value.date == now
      && r.upload.value.generated == Trunc(st.daily.gen / st.daily.readings as real * 24.0)
      && r.upload.value.peakPower == Trunc(st.daily.peak.value)
      && r.upload.value.peakTime == st.daily.peak.at
      && r.upload.value.minTemp == st.daily.temps.min && r.upload.value.maxTemp == st.daily.temps.max
      && (r.upload.value.comment == "EOD upload." <==> st.fullDaysReadings)
  {
    if DailyDue(st.lastOutput, now) then
      var st' := if posted then st.(lastOutput := now, daily := FreshDaily(now)) else st;
      assert "EOD upload." + "Incomplete readings for days" != "EOD upload.";
      DailyStep(st'.(fullDaysReadings := true), Some(DailyUpload(st.daily, st.fullDaysReadings, now)))
    else
      DailyStep(st, None)
  }

  /** The end-of-day output: generation scaled to 24 hours, the day's peak and temperature range. */
  function DailyUpload(daily: Daily, fullDays: bool, now: DateTime): OutputUpload
    requires daily.readings > 0
  {
    var comment := if fullDays then "" else "Incomplete readings for days";
    OutputUpload(now, Trunc(daily.gen / daily.readings as real * 24.0), Trunc(daily.peak.value), daily.peak.at,
                 "Not Sure", daily.temps.min, daily.temps.max, "EOD upload." + comment)
  }

  datatype Step = Step(state: MonitorState, status: Option<StatusUpload>, output: Option<OutputUpload>)

  /**
   * `addReading`: accumulate, then the status gate, then the end-of-day gate. Each upload goes
   * out exactly when its gate is due, and averages include the reading just added.
   */
  function AddReadingStep(st: MonitorState, x: Reading, now: DateTime,
                          statusPosted: bool, outputPosted: bool): (r: Step)
    requires Inv(st)
    ensures Inv(r.state)
    ensures r.status.Some? <==> StatusDue(st.lastStatus, now)
    ensures r.output.Some? <==> DailyDue(st.lastOutput, now)
    ensures r.state.fullDaysReadings == (st.fullDaysReadings || DailyDue(st.lastOutput, now))
    ensures r.status.Some? ==>
      r.status.value.powerGenerated * (st.window.readings + 1) as real == st.window.gen + Gen(x)
    ensures r.output.Some? ==>
      r.output.value.generated == Trunc((st.daily.gen + Gen(x)) / (st.daily.readings + 1) as real * 24.0)
    ensures r.status.None? ==> r.state.window.readings == st.window.readings + 1
    ensures r.output.None? ==> r.state.daily.readings == st.daily.readings + 1
  {
    var s1 := Accumulate(st, x, now);
    var g1 := StatusGate(s1, now, Temperature(x), statusPosted);
    var g2 := DailyGate(g1.state, now, outputPosted);
    Step(g2.state, g1.upload, g2.upload)
  }

  /** The globals after a sequence of readings, each with the clock and post outcomes it met. */
  datatype Arrival = Arrival(reading: Reading, now: DateTime, statusPosted: bool, outputPosted: bool)

  function Steps(st: MonitorState, arr: seq<Arrival>): (r: MonitorState)
    requires Inv(st)
    ensures Inv(r)
    decreases |arr|
  {
    if arr == [] then st
    else Steps(AddReadingStep(st, arr[0].reading, arr[0].now, arr[0].statusPosted, arr[0].outputPosted).state, arr[1..])
  }

  function SumGen(arr: seq<Arrival>): real
    decreases |arr|
  {
    if arr == [] then 0.0 else Gen(arr[0].reading) + SumGen(arr[1..])
  }

  function PeakStamps(arr: seq<Arrival>): (xs: seq<Stamped<DateTime>>)
    ensures |xs| == |arr|
    ensures forall i :: 0 <= i < |arr| ==> xs[i] == Stamped(Gen(arr[i].reading), arr[i].now)
    decreases |arr|
  {
    if arr == [] then [] else [Stamped(Gen(arr[0].reading), arr[0].now)] + PeakStamps(arr[1..])
  }

  function Temps(arr: seq<Arrival>): (ts: seq<real>)
    ensures |ts| == |arr|
    ensures forall i :: 0 <= i < |arr| ==> ts[i] == Temperature(arr[i].reading)
    decreases |arr|
  {
    if arr == [] then [] else [Temperature(arr[0].reading)] + Temps(arr[1..])
  }

  /**
   * While no end-of-day summary falls due, the day totals are the plain sums, the peak is the
   * peak tracker run over the readings and the range is the range tracker run over them;
   * the status gate never touches them.
   */
  lemma {:induction false} DailyTotalsWithoutUpload(st: MonitorState, arr: seq<Arrival>)
    requires Inv(st)
    requires forall i :: 0 <= i < |arr| ==> !DailyDue(st.lastOutput, arr[i].now)
    ensures var r := Steps(st, arr);
      && r.lastOutput == st.lastOutput && r.fullDaysReadings == st.fullDaysReadings
      && r.daily.gen == st.daily.gen + SumGen(arr)
      && r.daily.energy == st.daily.energy + SumGen(arr) * SampleTime
      && r.daily.readings == st.daily.readings + |arr|
      && r.daily.peak == PeakOf(st.daily.peak, PeakStamps(arr))
      && r.daily.temps == RangeOf(st.daily.temps, Temps(arr))
    decreases |arr|
  {
    if arr != [] {
      var a := arr[0];
      var s1 := AddReadingStep(st, a.reading, a.now, a.statusPosted, a.outputPosted).state;
      assert s1.daily == Accumulate(st, a.reading, a.now).daily;
      assert s1.lastOutput == st.lastOutput;
      forall i | 0 <= i < |arr[1..]| ensures !DailyDue(s1.lastOutput, arr[1..][i].now) {
        assert arr[1..][i] == arr[i + 1];
      }
      DailyTotalsWithoutUpload(s1, arr[1..]);
      assert PeakStamps(arr)[1..] == PeakStamps(arr[1..]);
      assert Temps(arr)[1..] == Temps(arr[1..]);
    }
  }

  /**
   * The peak a day's readings lead to, starting from fresh day totals: at least every
   * reading's power, and either the starting zero or the first reading that reaches it.
   */
  lemma DayPeakIsFirstMaximum(now0: DateTime, st: MonitorState, arr: seq<Arrival>)
    requires Inv(st) && st.daily == FreshDaily(now0)
    requires forall i :: 0 <= i < |arr| ==> !DailyDue(st.lastOutput, arr[i].now)
    ensures var peak := Steps(st, arr).daily.peak;
      && (forall i :: 0 <= i < |arr| ==> Gen(arr[i].reading) <= peak.value)
      && (peak == Stamped(0.0, now0) ||
          exists i :: 0 <= i < |arr| && peak == Stamped(Gen(arr[i].reading), arr[i].now)
                      && forall j :: 0 <= j < i ==> Gen(arr[j].reading) < peak.value)
  {
    DailyTotalsWithoutUpload(st, arr);
    var xs := PeakStamps(arr);
    PeakIsFirstMaximum(st.daily.peak, xs);
    var peak := PeakOf(st.daily.peak, xs);
    if peak != Stamped(0.0, now0) {
      var i :| 0 <= i < |xs| && peak == xs[i] && st.daily.peak.value < peak.value
               && forall j :: 0 <= j < i ==> xs[j].value < peak.value;
      assert forall j :: 0 <= j < i ==> Gen(arr[j].reading) < peak.value by {
        forall j | 0 <= j < i ensures Gen(arr[j].reading) < peak.value {
          assert xs[j].value == Gen(arr[j].reading);
        }
      }
      assert peak == Stamped(Gen(arr[i].reading), arr[i].now);
    }
  }

  /** The temperature range a day's readings lead to covers every one of them. */
  lemma DayRangeCoversReadings(st: MonitorState, arr: seq<Arrival>)
    requires Inv(st)
    requires forall i :: 0 <= i < |arr| ==> !DailyDue(st.lastOutput, arr[i].now)
    ensures var temps := Steps(st, arr).daily.temps;
      forall i :: 0 <= i < |arr| ==> temps.min <= Temperature(arr[i].reading) <= temps.max
  {
    DailyTotalsWithoutUpload(st, arr);
    RangeOfCovers(st.daily.temps, Temps(arr));
  }

  /**
   * While no status falls due the window holds the plain sums, so the next status posts
   * their mean.
   */
  lemma {:induction false} WindowTotalsWithoutStatus(st: MonitorState, arr: seq<Arrival>)
    requires Inv(st)
    requires forall i :: 0 <= i < |arr| ==> !StatusDue(st.lastStatus, arr[i].now)
    ensures var r := Steps(st, arr);
      && r.lastStatus == st.lastStatus
      && r.window.gen == st.window.gen + SumGen(arr)
      && r.window.readings == st.window.readings + |arr|
    decreases |arr|
  {
    if arr != [] {
      var a := arr[0];
      var s1 := AddReadingStep(st, a.reading, a.now, a.statusPosted, a.outputPosted).state;
      assert s1.window == Accumulate(st, a.reading, a.now).window;
      forall i | 0 <= i < |arr[1..]| ensures !StatusDue(s1.lastStatus, arr[1..][i].now) {
        assert arr[1..][i] == arr[i + 1];
      }
      WindowTotalsWithoutStatus(s1, arr[1..]);
    }
  }

  /**
   * Once a summary has been posted at `now`, none is due again on the same date, and one is
   * due after 23:45 on any later date.
   */
  lemma DailyUploadOncePerDate(st: MonitorState, now: DateTime, later: DateTime)
    requires Inv(st) && st.daily.readings > 0 && DailyDue(st.lastOutput, now)
    ensures var r := DailyGate(st, now, true).state;
      && (SameDate(now, later) ==> !DailyDue(r.lastOutput, later))
      && (DateBefore(now, later) && ClockBefore(AtClock(later, DailyUploadHour, DailyUploadMinute), later)
          ==> DailyDue(r.lastOutput, later))
  {
  }

  /** The first summary of a run says the day is incomplete exactly when the run began after sunrise. */
  lemma FirstSummaryComment(startup: DateTime, x: Reading, now: DateTime, statusPosted: bool, outputPosted: bool)
    requires DailyDue(Min, now)
    ensures var r := AddReadingStep(Initial(startup), x, now, statusPosted, outputPosted);
      r.output.Some? && (r.output.value.comment == "EOD upload." <==> startup.hour < SunriseHour)
  {
  }

  /** The clock values and post outcomes one record meets in `processReading`. */
  datatype Tick = Tick(utcNow: DateTime, now: DateTime, statusPosted: bool, outputPosted: bool)

  /** How far the serial loop got: the state, how many records were added, the error that stopped it. */
  datatype RecordsRun = RecordsRun(state: MonitorState, processed: nat, error: Option<ParseError>)

  /** The outcome of parsing each record with the UTC time it meets. */
  function ParseAll(records: seq<string>, ticks: seq<Tick>): (parsed: seq<Result<Reading, ParseError>>)
    requires |ticks| >= |records|
    ensures |parsed| == |records|
    ensures forall i :: 0 <= i < |records| ==> parsed[i] == ParseRecord(records[i], ticks[i].utcNow)
  {
    seq(|records|, i requires 0 <= i < |records| => ParseRecord(records[i], ticks[i].utcNow))
  }

  /**
   * `processReading` on one record whose parse outcome is `p`: an error leaves the globals
   * as they were, a reading is added with the clock and post outcomes of `tick`.
   */
  function RecordStep(st: MonitorState, p: Result<Reading, ParseError>, tick: Tick): (r: Step)
    requires Inv(st)
    ensures Inv(r.state)
    ensures p.Err? ==> r == Step(st, None, None)
  {
    match p
    case Err(_) => Step(st, None, None)
    case Ok(x) => AddReadingStep(st, x, tick.now, tick.statusPosted, tick.outputPosted)
  }

  /**
   * `processReading` over records in order, given their parse outcomes: each parsed record is
   * added; the first record that does not parse raises, which ends the program, so later
   * records are never seen.
   */
  function RunParsed(st: MonitorState, parsed: seq<Result<Reading, ParseError>>, ticks: seq<Tick>): (r: RecordsRun)
    requires Inv(st) && |ticks| >= |parsed|
    ensures Inv(r.state)
    ensures r.processed <= |parsed|
    ensures r.error.None? <==> r.processed == |parsed|
    ensures r.error.Some? ==> parsed[r.processed] == Err(r.error.value)
    ensures forall i :: 0 <= i < r.processed ==> parsed[i].Ok?
    decreases |parsed|
  {
    if parsed == [] then RecordsRun(st, 0, None)
    else
      var k := |parsed| - 1;
      var prev := RunParsed(st, parsed[..k], ticks);
      if prev.error.Some? then prev
      else if parsed[k].Err? then prev.(error := Some(parsed[k].error))
      else RecordsRun(RecordStep(prev.state, parsed[k], ticks[k]).state, prev.processed + 1, None)
  }

  /** One more record after a run without error: its error, or its step on the state so far. */
  lemma RunParsedStep(st: MonitorState, parsed: seq<Result<Reading, ParseError>>, ticks: seq<Tick>, i: nat)
    requires Inv(st) && |ticks| >= |parsed| && i < |parsed|
    requires RunParsed(st, parsed[..i], ticks).error.None?
    ensures var prev := RunParsed(st, parsed[..i], ticks);
      RunParsed(st, parsed[..i + 1], ticks) ==
        if parsed[i].Err? then prev.(error := Some(parsed[i].error))
        else RecordsRun(RecordStep(prev.state, parsed[i], ticks[i]).state, prev.processed + 1, None)
  {
    assert parsed[..i + 1][..i] == parsed[..i];
  }

  /** Once a record has failed, the records after it change nothing. */
  lemma {:induction false} RunStopsAtError(st: MonitorState, parsed: seq<Result<Reading, ParseError>>,
                                           ticks: seq<Tick>, i: nat)
    requires Inv(st) && |ticks| >= |parsed| && i <= |parsed|
    requires RunParsed(st, parsed[..i], ticks).error.Some?
    ensures RunParsed(st, parsed, ticks) == RunParsed(st, parsed[..i], ticks)
    decreases |parsed| - i
  {
    if i < |parsed| {
      var k := |parsed| - 1;
      assert parsed[..k][..i] == parsed[..i];
      RunStopsAtError(st, parsed[..k], ticks, i);
    } else {
      assert parsed[..i] == parsed;
    }
  }

  /** The globals of kaco2pvo.py, updated in place by `addReading`. */
  class Monitor {
    var totalGen: real
    var totalAmps: real
    var totalVolts: real
    var totalReadings: int
    var lastStatus: DateTime
    var dailyGen: real
    var dailyEnergy: real
    var dailyReadings: int
    var peakGen: real
    var peakTime: DateTime
    var minTemp: real
    var maxTemp: real
    var lastOutput: DateTime
    var fullDaysReadings: bool

    function State(): MonitorState
      reads this
    {
      MonitorState(Window(totalGen, totalAmps, totalVolts, totalReadings), lastStatus,
                   Daily(dailyGen, dailyEnergy, dailyReadings, Stamped(peakGen, peakTime), Range(minTemp, maxTemp)),
                   lastOutput, fullDaysReadings)
    }

    ghost predicate Valid()
      reads this
    {
      Inv(State())
    }

    /** The module-level initialisations and the full-day decision of the serial loop. */
    constructor(startup: DateTime)
      ensures Valid() && State() == Initial(startup)
    {
      totalGen, totalAmps, totalVolts, totalReadings := 0.0, 0.0, 0.0, 0;
      lastStatus := Min;
      dailyGen, dailyEnergy, dailyReadings := 0.0, 0.0, 0;
      peakGen, peakTime := 0.0, startup;
      minTemp, maxTemp := MinTempStart, MaxTempStart;
      lastOutput := Min;
      fullDaysReadings := startup.hour < SunriseHour;
    }

    /** `addReading(x)` at local time `now`, with the outcomes of the two posts. */
    method AddReading(x: Reading, now: DateTime, statusPosted: bool, outputPosted: bool)
      returns (status: Option<StatusUpload>, output: Option<OutputUpload>)
      requires Valid()
      modifies this
      ensures Valid()
      ensures Step(State(), status, output) == AddReadingStep(old(State()), x, now, statusPosted, outputPosted)
    {
      AccumulateReading(x, now);
      status := PostStatus(now, Value(x.unitTemperature), statusPosted);
      output := PostDailySummary(now, outputPosted);
    }

    /** The totals, peak and temperature updates at the head of `addReading`. */
    method AccumulateReading(x: Reading, now: DateTime)
      requires Valid()
      modifies this
      ensures Valid()
      ensures State() == Accumulate(old(State()), x, now)
    {
      var gen := Value(x.generatorPower);
      var volts := Value(x.generatorVoltage);
      var temperature := Value(x.unitTemperature);
      var amps := Value(x.generatorCurrent);
      AddToWindow(gen, amps, volts);
      AddToDay(gen);
      TrackExtremes(gen, temperature, now);
    }

    /** `totalGen += gen` to `totalReadings += 1`. */
    method AddToWindow(gen: real, amps: real, volts: real)
      requires Valid()
      modifies this
      ensures Valid()
      ensures State() == old(State()).(window := Window(old(totalGen) + gen, old(totalAmps) + amps,
                                                        old(totalVolts) + volts, old(totalReadings) + 1))
    {
      totalGen := totalGen + gen;
      totalAmps := totalAmps + amps;
      totalVolts := totalVolts + volts;
      totalReadings := totalReadings + 1;
    }

    /** `dailyGen += gen` to `dailyReadings += 1`: energy grows by power times the sample time. */
    method AddToDay(gen: real)
      requires Valid()
      modifies this
      ensures Valid()
      ensures State() == old(State()).(daily := old(State()).daily.(
        gen := old(dailyGen) + gen, energy := old(dailyEnergy) + gen * SampleTime,
        readings := old(dailyReadings) + 1))
    {
      dailyGen := dailyGen + gen;
      dailyEnergy := dailyEnergy + gen * SampleTime;
      dailyReadings := dailyReadings + 1;
    }

    /** The peak and temperature updates: each replaces its value only on a strict improvement. */
    method TrackExtremes(gen: real, temperature: real, now: DateTime)
      requires Valid()
      modifies this
      ensures Valid()
      ensures State() == old(State()).(daily := old(State()).daily.(
        peak := TrackPeak(old(State()).daily.peak, Stamped(gen, now)),
        temps := TrackRange(old(State()).daily.temps, temperature)))
    {
      if gen > peakGen {
        peakGen := gen;
        peakTime := now;
      }
      if temperature > maxTemp {
        maxTemp := temperature;
      }
      if temperature < minTemp {
        minTemp := temperature;
      }
    }

    /** The five-minute status section of `addReading`. */
    method PostStatus(now: DateTime, temperature: real, posted: bool) returns (status: Option<StatusUpload>)
      requires Valid() && totalReadings > 0
      modifies this
      ensures Valid()
      ensures StatusStep(State(), status) == StatusGate(old(State()), now, temperature, posted)
    {
      status := None;
      if StatusDue(lastStatus, now) {
        var n := totalReadings as real;
        status := Some(StatusUpload(now, dailyEnergy, totalGen / n, temperature, totalVolts / n));
        lastStatus := now;
        if posted {
          totalGen, totalAmps, totalVolts, totalReadings := 0.0, 0.0, 0.0, 0;
        }
      }
    }

    /** The end-of-day section of `addReading`. */
    method PostDailySummary(now: DateTime, posted: bool) returns (output: Option<OutputUpload>)
      requires Valid() && dailyReadings > 0
      modifies this
      ensures Valid()
      ensures DailyStep(State(), output) == DailyGate(old(State()), now, posted)
    {
      var st := State();
      output := None;
      if DailyDue(lastOutput, now) {
        output := Some(DailyUpload(st.daily, fullDaysReadings, now));
        if posted {
          RestartDay(now);
        }
        fullDaysReadings := true;
      }
    }

    /** After a summary was posted: `lastOutput` moves to now and the day totals restart. */
    method RestartDay(now: DateTime)
      modifies this
      ensures State() == old(State()).(lastOutput := now, daily := FreshDaily(now))
    {
      lastOutput, dailyGen, dailyEnergy, dailyReadings := now, 0.0, 0.0, 0;
      peakGen, peakTime, minTemp, maxTemp := 0.0, now, MinTempStart, MaxTempStart;
    }

    /**
     * `processReading(record)`: a record that does not parse raises before any global
     * changes; one that parses is added.
     */
    method ProcessReading(record: string, tick: Tick)
      returns (error: Option<ParseError>, status: Option<StatusUpload>, output: Option<OutputUpload>)
      requires Valid()
      modifies this
      ensures Valid()
      ensures var p := ParseRecord(record, tick.utcNow);
        && (error.Some? <==> p.Err?)
        && (p.Err? ==> error.value == p.error)
        && Step(State(), status, output) == RecordStep(old(State()), p, tick)
    {
      match ParseRecord(record, tick.utcNow)
      case Err(e) =>
        error, status, output := Some(e), None, None;
      case Ok(x) =>
        error := None;
        status, output := AddReading(x, tick.now, tick.statusPosted, tick.outputPosted);
    }

    /**
     * The records the serial buffer hands over, processed in order until one raises.
     */
    method ProcessRecords(records: seq<string>, ticks: seq<Tick>) returns (processed: nat, error: Option<ParseError>)
      requires Valid() && |ticks| == |records|
      modifies this
      ensures Valid()
      ensures RecordsRun(State(), processed, error) == RunParsed(old(State()), ParseAll(records, ticks), ticks)
    {
      ghost var st0 := State();
      ghost var parsed := ParseAll(records, ticks);
      processed, error := 0, None;
      var i := 0;
      while i < |records| && error.None?
        invariant 0 <= i <= |records|
        invariant Valid()
        invariant RecordsRun(State(), processed, error) == RunParsed(st0, parsed[..i], ticks)
        decreases |records| - i
      {
        RunParsedStep(st0, parsed, ticks, i);
        var e, _, _ := ProcessReading(records[i], ticks[i]);
        if e.None? {
          processed := processed + 1;
        } else {
          error := e;
        }
        i := i + 1;
      }
      if i < |records| {
        RunStopsAtError(st0, parsed, ticks, i);
      } else {
        assert parsed[..i] == parsed;
      }
    }
  }

  /* ---- The source as written, where it departs from the evident intent ---- */

  /**
   * The end-of-day condition as written: `timeNow > PV_DAILY_UPLOAD_TIME`, where the cutoff
   * is 23:45 on the date the script started, and `timeNow.day > lastOutput.day`, which
   * compares days of the month.
   */
  predicate DailyDueAsWritten(cutoff: DateTime, lastOutput: DateTime, now: DateTime)
  {
    Before(cutoff, now) && now.day > lastOutput.day
  }

  /** After a summary on the 31st, the written condition never holds again. */
  lemma MonthEndStopsSummaries(cutoff: DateTime, lastOutput: DateTime, now: DateTime)
    requires lastOutput.day == 31 && Valid(now)
    ensures !DailyDueAsWritten(cutoff, lastOutput, now)
  {
  }

  /** A summary posted on 31 January blocks the one for 1 February, which the intent allows. */
  lemma MonthEndCounterexample()
    ensures var startup := DateTime(2014, 1, 31, 8, 0, 0);
      var lastOutput := DateTime(2014, 1, 31, 23, 50, 0);
      var now := DateTime(2014, 2, 1, 23, 50, 0);
      && !DailyDueAsWritten(AtClock(startup, DailyUploadHour, DailyUploadMinute), lastOutput, now)
      && DailyDue(lastOutput, now)
  {
  }

  /**
   * With the cutoff fixed on the start date, every later date is past it from midnight on:
   * the summary for 2 May goes out at 06:30 that morning instead of after 23:45.
   */
  lemma EarlySummaryCounterexample()
    ensures var startup := DateTime(2014, 5, 1, 8, 0, 0);
      var lastOutput := DateTime(2014, 5, 1, 23, 50, 0);
      var now := DateTime(2014, 5, 2, 6, 30, 0);
      && DailyDueAsWritten(AtClock(startup, DailyUploadHour, DailyUploadMinute), lastOutput, now)
      && !DailyDue(lastOutput, now)
  {
  }

  /** The full-day flag as written: `START_TIME.hour < sunriseHour` gives False. */
  function FullDayAsWritten(startup: DateTime): bool
  {
    !(startup.hour < SunriseHour)
  }

  /** A run started at 05:00 sees the whole day but is flagged incomplete as written. */
  lemma FullDayCounterexample()
    ensures var startup := DateTime(2014, 5, 1, 5, 0, 0);
      !FullDayAsWritten(startup) && FullDay(startup)
  {
  }

  /** The peak update as written: the stored peak is `int(gen)`. */
  function TrackPeakAsWritten(peak: Stamped<DateTime>, gen: real, now: DateTime): Stamped<DateTime>
  {
    if gen > peak.value then Stamped(Trunc(gen) as real, now) else peak
  }

  /**
   * Readings of 100.5 W then 100.2 W: as written the stored 100 is beaten by 100.2, so the
   * peak time becomes that of the smaller reading; the peak tracker keeps the first.
   */
  lemma PeakTimeCounterexample()
    ensures var t0 := DateTime(2014, 5, 1, 6, 0, 0);
      var t1 := DateTime(2014, 5, 1, 12, 0, 0);
      var t2 := DateTime(2014, 5, 1, 12, 0, 10);
      var asWritten := TrackPeakAsWritten(TrackPeakAsWritten(Stamped(0.0, t0), 100.5, t1), 100.2, t2);
      var intended := PeakOf(Stamped(0.0, t0), [Stamped(100.5, t1), Stamped(100.2, t2)]);
      asWritten.at == t2 && intended.at == t1
  {
    var t0 := DateTime(2014, 5, 1, 6, 0, 0);
    var x1 := Stamped(100.5, DateTime(2014, 5, 1, 12, 0, 0));
    var x2 := Stamped(100.2, DateTime(2014, 5, 1, 12, 0, 10));
    var xs := [x1, x2];
    assert xs[1..] == [x2] && xs[1..][1..] == [];
    assert PeakOf(Stamped(0.0, t0), xs) == PeakOf(x1, [x2]) == PeakOf(x1, []);
  }
}
