/**
 * `PowerStats` (kaco2pvo/sources/PowerStats.py): running statistics over power readings. The
 * statistics dictionary holds, for two scopes (the whole run and the current sample period),
 * the sums of energy, power, voltage, current and temperature with their averages, plus the
 * peak power with its time and the temperature extremes. `caclulate_stats` folds one reading in.
 */
module PowerStatistics {
  import opened Common
  import opened Numbers
  import opened Clock
  import opened Tracking
  import opened PowerReadings

  /** The five quantities that are summed and averaged. */
  datatype Quantity = Energy | Power | Voltage | Current | Temperature

  /**
   * One scope of sums and averages: the `*_total` / `*_average` entries, or the
   * `*_this_sample_period` / `*_average_this_sample_period` entries.
   */
  datatype Scope = Scope(
    energy: real, energyAverage: real,
    power: real, powerAverage: real,
    voltage: real, voltageAverage: real,
    current: real, currentAverage: real,
    temperature: real, temperatureAverage: real)

  const ZeroScope: Scope := Scope(0.0, 0.0, 0.0, 0.0, 0.0, 0.0, 0.0, 0.0, 0.0, 0.0)

  function Sum(c: Scope, q: Quantity): real
  {
    match q
    case Energy => c.energy
    case Power => c.power
    case Voltage => c.voltage
    case Current => c.current
    case Temperature => c.temperature
  }

  function Average(c: Scope, q: Quantity): real
  {
    match q
    case Energy => c.energyAverage
    case Power => c.powerAverage
    case Voltage => c.voltageAverage
    case Current => c.currentAverage
    case Temperature => c.temperatureAverage
  }

  /** Writing the sum of `q` (the `set_total_*` setters): nothing else in the scope moves. */
  function WithSum(c: Scope, q: Quantity, x: real): (r: Scope)
    ensures Sum(r, q) == x
    ensures forall q' :: q' != q ==> Sum(r, q') == Sum(c, q')
    ensures forall q' :: Average(r, q') == Average(c, q')
  {
    match q
    case Energy => c.(energy := x)
    case Power => c.(power := x)
    case Voltage => c.(voltage := x)
    case Current => c.(current := x)
    case Temperature => c.(temperature := x)
  }

  /** `scope[q] += x`. */
  function AddTo(c: Scope, q: Quantity, x: real): (r: Scope)
    ensures Sum(r, q) == Sum(c, q) + x
    ensures forall q' :: q' != q ==> Sum(r, q') == Sum(c, q')
    ensures forall q' :: Average(r, q') == Average(c, q')
  {
    WithSum(c, q, Sum(c, q) + x)
  }

  /** `scope[q average] = scope[q] / n`: the average times the count gives back the sum. */
  function Averaged(c: Scope, q: Quantity, n: int): (r: Scope)
    requires n != 0
    ensures Average(r, q) == Sum(c, q) / (n as real)
    ensures forall q' :: Sum(r, q') == Sum(c, q')
    ensures forall q' :: q' != q ==> Average(r, q') == Average(c, q')
  {
    var a := Sum(c, q) / (n as real);
    match q
    case Energy => c.(energyAverage := a)
    case Power => c.(powerAverage := a)
    case Voltage => c.(voltageAverage := a)
    case Current => c.(currentAverage := a)
    case Temperature => c.(temperatureAverage := a)
  }

  /**
   * The statistics dictionary. Times are seconds since 1900-01-01; `timeSamplePeriod` is a
   * timedelta in seconds. `time_of_stat` and `time_peak` are absent until a calculation writes
   * them. `clearedTimeOfStat` is the misspelled `timeofstat` entry `clear_stats` writes and
   * nothing reads.
   */
  datatype Stats = Stats(
    timeSamplePeriod: int,
    timeOfStat: Option<int>,
    timePeak: Option<int>,
    clearedTimeOfStat: int,
    sample: Scope,
    total: Scope,
    powerPeak: real,
    temperatureMax: real,
    temperatureMin: real)

  /** The whole value of a PowerStats object: its dictionary and its two counters. */
  datatype Snapshot = Snapshot(stats: Stats, totalReadingCount: int, sampleReadingCount: int)

  /** KeyError, TypeError, the ValueError of `strptime`, and ZeroDivisionError. */
  datatype StatsError = MissingKey(key: Key) | NotANumber(key: Key) | BadPlaceholder | ZeroDivision

  /** `clear_stats` on the dictionary: totals, averages and the peak go to zero, extremes to -254 / 255. */
  function ClearedStats(s: Stats): Stats
  {
    s.(total := ZeroScope, powerPeak := 0.0, temperatureMax := -254.0, temperatureMin := 255.0,
       clearedTimeOfStat := MinTime)
  }

  /** `reset_sample_period` on the dictionary: the sample period and the sample scope go to zero. */
  function ResetSample(s: Stats): Stats
  {
    s.(timeSamplePeriod := 0, sample := ZeroScope)
  }

  /**
   * Clearing zeroes every whole-run sum and average and the peak, reseeds the temperature
   * extremes, and leaves the sample period, the sample scope, the time of stat and the peak time.
   */
  lemma ClearTouchesOnlyTotals(s: Stats)
    ensures var r := ClearedStats(s);
      && (forall q :: Sum(r.total, q) == 0.0 && Average(r.total, q) == 0.0)
      && r.powerPeak == 0.0 && r.temperatureMax == -254.0 && r.temperatureMin == 255.0
      && r.sample == s.sample && r.timeSamplePeriod == s.timeSamplePeriod
      && r.timeOfStat == s.timeOfStat && r.timePeak == s.timePeak
  {
  }

  /**
   * Resetting the sample period zeroes the period and every sample sum and average, and leaves
   * the whole-run scope, the peak and the temperature extremes.
   */
  lemma ResetTouchesOnlySample(s: Stats)
    ensures var r := ResetSample(s);
      && (forall q :: Sum(r.sample, q) == 0.0 && Average(r.sample, q) == 0.0)
      && r.timeSamplePeriod == 0
      && r.total == s.total && r.powerPeak == s.powerPeak && r.timePeak == s.timePeak
      && r.temperatureMax == s.temperatureMax && r.temperatureMin == s.temperatureMin
      && r.timeOfStat == s.timeOfStat
  {
  }

  /** The dictionary of a new PowerStats: `create_stats`, `clear_stats`, `reset_sample_period`. */
  const InitialStats: Stats := Stats(0, None, None, MinTime, ZeroScope, ZeroScope, 0.0, -254.0, 255.0)

  /**
   * `strptime(power_reading.get_placeholder(), "%H.%M.%S")` as seconds since midnight:
   * KeyError when the entry is missing, an error when it is not "HH.MM.SS" text.
   */
  function PlaceholderClock(d: ReadingDict): (r: Result<int, StatsError>)
    ensures r.Ok? ==> 0 <= r.value < SecondsPerDay
  {
    match Lookup(d, Placeholder)
    case None => Err(MissingKey(Placeholder))
    case Some(f) =>
      if f.Text? && ParseClock(f.s, '.').Some? then Ok(ParseClock(f.s, '.').value) else Err(BadPlaceholder)
  }

  /** A numeric entry of the reading: KeyError when missing, TypeError in arithmetic when not a number. */
  function NumberAt(d: ReadingDict, k: Key): Result<real, StatsError>
  {
    match Lookup(d, k)
    case None => Err(MissingKey(k))
    case Some(f) => if f.Num? then Ok(Value(f.n)) else Err(NotANumber(k))
  }

  /** Every entry `caclulate_stats` reads is there and has the right type. */
  predicate Readable(d: ReadingDict)
  {
    && PlaceholderClock(d).Ok?
    && NumberAt(d, GeneratorPower).Ok?
    && NumberAt(d, GeneratorVoltage).Ok?
    && NumberAt(d, GeneratorCurrent).Ok?
    && NumberAt(d, GeneratorTemperature).Ok?
  }

  /** What one reading adds to the sum of `q`; energy is power times the sample period in hours. */
  function Increment(d: ReadingDict, hours: real, q: Quantity): real
    requires Readable(d)
  {
    match q
    case Energy => NumberAt(d, GeneratorPower).value * hours
    case Power => NumberAt(d, GeneratorPower).value
    case Voltage => NumberAt(d, GeneratorVoltage).value
    case Current => NumberAt(d, GeneratorCurrent).value
    case Temperature => NumberAt(d, GeneratorTemperature).value
  }

  /** The dictionary after `caclulate_stats` and whether it returned or raised. */
  datatype Calc = Calc(stats: Stats, outcome: Outcome<StatsError>)

  /** The four statements that fold `x` into quantity `q`: both sums, then both averages. */
  function AddAndAverage(s: Stats, q: Quantity, x: real, tc: int, sc: int): (r: Stats)
    requires tc != 0 && sc != 0
    ensures forall q' :: Sum(r.total, q') == Sum(s.total, q') + (if q' == q then x else 0.0)
    ensures forall q' :: Sum(r.sample, q') == Sum(s.sample, q') + (if q' == q then x else 0.0)
    ensures Average(r.total, q) == Sum(r.total, q) / (tc as real)
    ensures Average(r.sample, q) == Sum(r.sample, q) / (sc as real)
    ensures forall q' :: q' != q ==> Average(r.total, q') == Average(s.total, q')
    ensures forall q' :: q' != q ==> Average(r.sample, q') == Average(s.sample, q')
    ensures r.(sample := s.sample, total := s.total) == s
  {
    var sample := AddTo(s.sample, q, x);
    var total := AddTo(s.total, q, x);
    s.(sample := Averaged(sample, q, sc), total := Averaged(total, q, tc))
  }

  /**
   * `caclulate_stats(power_reading, start_date)` with total count `tc` and sample count `sc`,
   * statement by statement: the dictionary is left as it stood when an exception was raised.
   */
  function Calculate(s: Stats, tc: int, sc: int, d: ReadingDict, startDate: int): Calc
  {
    match PlaceholderClock(d)
    case Err(e) => Calc(s, Fail(e))
    case Ok(clock) =>
      var s1 := s.(timeOfStat := Some(DayStart(startDate) + clock));
      match NumberAt(d, GeneratorPower)
      case Err(e) => Calc(s1, Fail(e))
      case Ok(p) => Energize(s1, d, clock, p, tc, sc)
  }

  /**
   * The rest of `caclulate_stats` once the time of the stats is set and the power `p` read:
   * energy over the sample period into both scopes, the energy averages, then Measure.
   */
  function Energize(s: Stats, d: ReadingDict, clock: int, p: real, tc: int, sc: int): Calc
  {
    var energy := p * Hours(s.timeSamplePeriod);
    var s2 := s.(sample := AddTo(s.sample, Energy, energy), total := AddTo(s.total, Energy, energy));
    if tc == 0 then Calc(s2, Fail(ZeroDivision))
    else
      var s3 := s2.(total := Averaged(s2.total, Energy, tc));
      if sc == 0 then Calc(s3, Fail(ZeroDivision))
      else Measure(s3.(sample := Averaged(s3.sample, Energy, sc)), d, clock, p, tc, sc)
  }

  /** The rest of `caclulate_stats` once the energy entries are done: power, voltage, current, temperature. */
  function Measure(s: Stats, d: ReadingDict, clock: int, p: real, tc: int, sc: int): Calc
    requires tc != 0 && sc != 0
  {
    var peak := TrackPeak(Stamped(s.powerPeak, s.timePeak), Stamped(p, Some(clock)));
    var s1 := AddAndAverage(s.(powerPeak := peak.value, timePeak := peak.at), Power, p, tc, sc);
    match NumberAt(d, GeneratorVoltage)
    case Err(e) => Calc(s1, Fail(e))
    case Ok(v) =>
      var s2 := AddAndAverage(s1, Voltage, v, tc, sc);
      match NumberAt(d, GeneratorCurrent)
      case Err(e) => Calc(s2, Fail(e))
      case Ok(c) =>
        var s3 := AddAndAverage(s2, Current, c, tc, sc);
        match NumberAt(d, GeneratorTemperature)
        case Err(e) => Calc(s3, Fail(e))
        case Ok(t) =>
          var temps := TrackRange(Range(s3.temperatureMin, s3.temperatureMax), t);
          Calc(AddAndAverage(s3.(temperatureMin := temps.min, temperatureMax := temps.max), Temperature, t, tc, sc), Pass)
  }

  /** A calculation returns normally exactly when every entry it reads is usable and both counts are non-zero. */
  lemma CalculateSucceeds(s: Stats, tc: int, sc: int, d: ReadingDict, startDate: int)
    ensures Calculate(s, tc, sc, d, startDate).outcome.Pass? <==> Readable(d) && tc != 0 && sc != 0
  {
  }

  /**
   * A successful calculation adds the reading's contribution to every sum of both scopes, stamps
   * the time of stat with the start date and the reading's clock, and leaves the sample period
   * alone.
   */
  lemma CalculateAccumulates(s: Stats, tc: int, sc: int, d: ReadingDict, startDate: int)
    requires Readable(d) && tc != 0 && sc != 0
    ensures var r := Calculate(s, tc, sc, d, startDate).stats;
      && r.timeOfStat == Some(DayStart(startDate) + PlaceholderClock(d).value)
      && r.timeSamplePeriod == s.timeSamplePeriod
      && r.clearedTimeOfStat == s.clearedTimeOfStat
      && (forall q :: Sum(r.total, q) == Sum(s.total, q) + Increment(d, Hours(s.timeSamplePeriod), q))
      && (forall q :: Sum(r.sample, q) == Sum(s.sample, q) + Increment(d, Hours(s.timeSamplePeriod), q))
  {
    var s4 := EnergyDone(s, tc, sc, d, startDate);
    CalculateContinues(s, tc, sc, d, startDate);
    MeasureAccumulates(s4, d, PlaceholderClock(d).value, NumberAt(d, GeneratorPower).value, tc, sc);
  }

  /** After a successful calculation every average of a scope is its sum divided by that scope's count. */
  lemma CalculateAverages(s: Stats, tc: int, sc: int, d: ReadingDict, startDate: int)
    requires Readable(d) && tc != 0 && sc != 0
    ensures var r := Calculate(s, tc, sc, d, startDate).stats;
      && (forall q :: Average(r.total, q) == Sum(r.total, q) / (tc as real))
      && (forall q :: Average(r.sample, q) == Sum(r.sample, q) / (sc as real))
  {
    var s4 := EnergyDone(s, tc, sc, d, startDate);
    CalculateContinues(s, tc, sc, d, startDate);
    MeasureAccumulates(s4, d, PlaceholderClock(d).value, NumberAt(d, GeneratorPower).value, tc, sc);
    MeasureAverages(s4, d, PlaceholderClock(d).value, NumberAt(d, GeneratorPower).value, tc, sc);
  }

  /** The dictionary once the energy statements are done, from which Measure continues. */
  function EnergyDone(s: Stats, tc: int, sc: int, d: ReadingDict, startDate: int): (s4: Stats)
    requires Readable(d) && tc != 0 && sc != 0
    ensures s4.timeOfStat == Some(DayStart(startDate) + PlaceholderClock(d).value)
    ensures s4.timeSamplePeriod == s.timeSamplePeriod && s4.clearedTimeOfStat == s.clearedTimeOfStat
    ensures forall q :: Sum(s4.total, q) == Sum(s.total, q) + (if q == Energy then Increment(d, Hours(s.timeSamplePeriod), q) else 0.0)
    ensures forall q :: Sum(s4.sample, q) == Sum(s.sample, q) + (if q == Energy then Increment(d, Hours(s.timeSamplePeriod), q) else 0.0)
    ensures Average(s4.total, Energy) == Sum(s4.total, Energy) / (tc as real)
    ensures Average(s4.sample, Energy) == Sum(s4.sample, Energy) / (sc as real)
  {
    var clock := PlaceholderClock(d).value;
    var p := NumberAt(d, GeneratorPower).value;
    var s1 := s.(timeOfStat := Some(DayStart(startDate) + clock));
    var energy := p * Hours(s.timeSamplePeriod);
    var s2 := s1.(sample := AddTo(s1.sample, Energy, energy), total := AddTo(s1.total, Energy, energy));
    var s3 := s2.(total := Averaged(s2.total, Energy, tc));
    s3.(sample := Averaged(s3.sample, Energy, sc))
  }

  /** A calculation on a readable entry with non-zero counts is Measure continuing from EnergyDone. */
  lemma CalculateContinues(s: Stats, tc: int, sc: int, d: ReadingDict, startDate: int)
    requires Readable(d) && tc != 0 && sc != 0
    ensures Calculate(s, tc, sc, d, startDate)
            == Measure(EnergyDone(s, tc, sc, d, startDate), d, PlaceholderClock(d).value,
                       NumberAt(d, GeneratorPower).value, tc, sc)
  {
  }

  /** The power, voltage, current and temperature statements add to those sums and leave energy alone. */
  lemma MeasureAccumulates(s: Stats, d: ReadingDict, clock: int, p: real, tc: int, sc: int)
    requires Readable(d) && tc != 0 && sc != 0 && p == NumberAt(d, GeneratorPower).value
    ensures var r := Measure(s, d, clock, p, tc, sc);
      && r.outcome.Pass?
      && r.stats.(sample := s.sample, total := s.total, powerPeak := s.powerPeak, timePeak := s.timePeak,
                  temperatureMin := s.temperatureMin, temperatureMax := s.temperatureMax) == s
      && Sum(r.stats.total, Energy) == Sum(s.total, Energy)
      && Sum(r.stats.sample, Energy) == Sum(s.sample, Energy)
      && Average(r.stats.total, Energy) == Average(s.total, Energy)
      && Average(r.stats.sample, Energy) == Average(s.sample, Energy)
      && (forall q :: q != Energy ==> Sum(r.stats.total, q) == Sum(s.total, q) + Increment(d, 0.0, q))
      && (forall q :: q != Energy ==> Sum(r.stats.sample, q) == Sum(s.sample, q) + Increment(d, 0.0, q))
  {
  }

  /** ... and average each of them over the counts. */
  lemma MeasureAverages(s: Stats, d: ReadingDict, clock: int, p: real, tc: int, sc: int)
    requires Readable(d) && tc != 0 && sc != 0 && p == NumberAt(d, GeneratorPower).value
    ensures var r := Measure(s, d, clock, p, tc, sc).stats;
      && (forall q :: q != Energy ==> Average(r.total, q) == Sum(r.total, q) / (tc as real))
      && (forall q :: q != Energy ==> Average(r.sample, q) == Sum(r.sample, q) / (sc as real))
  {
    var peak := TrackPeak(Stamped(s.powerPeak, s.timePeak), Stamped(p, Some(clock)));
    var s1 := AddAndAverage(s.(powerPeak := peak.value, timePeak := peak.at), Power, p, tc, sc);
    var s2 := AddAndAverage(s1, Voltage, NumberAt(d, GeneratorVoltage).value, tc, sc);
    var s3 := AddAndAverage(s2, Current, NumberAt(d, GeneratorCurrent).value, tc, sc);
    var t := NumberAt(d, GeneratorTemperature).value;
    var temps := TrackRange(Range(s3.temperatureMin, s3.temperatureMax), t);
    var r := AddAndAverage(s3.(temperatureMin := temps.min, temperatureMax := temps.max), Temperature, t, tc, sc);
    assert Measure(s, d, clock, p, tc, sc) == Calc(r, Pass);
    forall q | q != Energy
      ensures Average(r.total, q) == Sum(r.total, q) / (tc as real)
      ensures Average(r.sample, q) == Sum(r.sample, q) / (sc as real)
    {
      match q
      case Power =>
        assert Sum(r.total, q) == Sum(s1.total, q) && Average(r.total, q) == Average(s1.total, q);
        assert Sum(r.sample, q) == Sum(s1.sample, q) && Average(r.sample, q) == Average(s1.sample, q);
      case Voltage =>
        assert Sum(r.total, q) == Sum(s2.total, q) && Average(r.total, q) == Average(s2.total, q);
        assert Sum(r.sample, q) == Sum(s2.sample, q) && Average(r.sample, q) == Average(s2.sample, q);
      case Current =>
        assert Sum(r.total, q) == Sum(s3.total, q) && Average(r.total, q) == Average(s3.total, q);
        assert Sum(r.sample, q) == Sum(s3.sample, q) && Average(r.sample, q) == Average(s3.sample, q);
      case Temperature =>
    }
  }

  /**
   * A successful calculation moves the peak and its time exactly as TrackPeak does with the
   * reading's power stamped with its clock, and the temperature extremes as TrackRange does.
   */
  lemma CalculateTracksExtremes(s: Stats, tc: int, sc: int, d: ReadingDict, startDate: int)
    requires Readable(d) && tc != 0 && sc != 0
    ensures var r := Calculate(s, tc, sc, d, startDate).stats;
      && Stamped(r.powerPeak, r.timePeak)
         == TrackPeak(Stamped(s.powerPeak, s.timePeak),
                      Stamped(NumberAt(d, GeneratorPower).value, Some(PlaceholderClock(d).value)))
      && Range(r.temperatureMin, r.temperatureMax)
         == TrackRange(Range(s.temperatureMin, s.temperatureMax), NumberAt(d, GeneratorTemperature).value)
  {
  }

  /**
   * Where a calculation stops: a bad placeholder changes nothing; a bad power entry leaves only
   * the time of stat written; a zero total count raises after the energy was already added to
   * both scopes; a bad voltage, current or temperature entry raises after the power was counted.
   */
  lemma CalculateFailsPartway(s: Stats, tc: int, sc: int, d: ReadingDict, startDate: int)
    ensures var r := Calculate(s, tc, sc, d, startDate);
      PlaceholderClock(d).Err? ==> r == Calc(s, Fail(PlaceholderClock(d).error))
    ensures var r := Calculate(s, tc, sc, d, startDate);
      PlaceholderClock(d).Ok? && NumberAt(d, GeneratorPower).Err? ==>
        r == Calc(s.(timeOfStat := Some(DayStart(startDate) + PlaceholderClock(d).value)),
                  Fail(NumberAt(d, GeneratorPower).error))
    ensures var r := Calculate(s, tc, sc, d, startDate);
      PlaceholderClock(d).Ok? && NumberAt(d, GeneratorPower).Ok? && tc == 0 ==>
        && r.outcome == Fail(ZeroDivision)
        && Sum(r.stats.total, Energy)
           == Sum(s.total, Energy) + NumberAt(d, GeneratorPower).value * Hours(s.timeSamplePeriod)
        && Sum(r.stats.sample, Energy)
           == Sum(s.sample, Energy) + NumberAt(d, GeneratorPower).value * Hours(s.timeSamplePeriod)
        && Sum(r.stats.total, Power) == Sum(s.total, Power)
    ensures var r := Calculate(s, tc, sc, d, startDate);
      PlaceholderClock(d).Ok? && NumberAt(d, GeneratorPower).Ok? && tc != 0 && sc != 0 && !Readable(d) ==>
        && r.outcome.Fail?
        && Sum(r.stats.total, Power) == Sum(s.total, Power) + NumberAt(d, GeneratorPower).value
        && Sum(r.stats.total, Temperature) == Sum(s.total, Temperature)
  {
  }

  /**
   * A fresh reading cannot be folded in: `clear_reading` leaves the placeholder "00.00.0000",
   * which "%H.%M.%S" rejects, so the calculation raises before touching anything.
   */
  lemma ClearedReadingRejected(s: Stats, tc: int, sc: int, startDate: int)
    ensures Calculate(s, tc, sc, ClearedFields(), startDate) == Calc(s, Fail(BadPlaceholder))
  {
  }

  /**
   * The first reading after `clear_stats` and `reset_sample_period`, with both counts one: each
   * sum and each average is that reading's contribution, and a temperature within the cleared
   * bounds becomes both the minimum and the maximum.
   */
  lemma FirstReadingStats(s: Stats, d: ReadingDict, startDate: int)
    requires Readable(d)
    requires -254.0 <= NumberAt(d, GeneratorTemperature).value <= 255.0
    ensures var r := Calculate(ResetSample(ClearedStats(s)), 1, 1, d, startDate).stats;
      && (forall q :: Sum(r.total, q) == Increment(d, 0.0, q) && Average(r.total, q) == Sum(r.total, q))
      && (forall q :: Sum(r.sample, q) == Increment(d, 0.0, q) && Average(r.sample, q) == Sum(r.sample, q))
      && r.temperatureMin == NumberAt(d, GeneratorTemperature).value
      && r.temperatureMax == NumberAt(d, GeneratorTemperature).value
  {
    var s0 := ResetSample(ClearedStats(s));
    CalculateAccumulates(s0, 1, 1, d, startDate);
    CalculateTracksExtremes(s0, 1, 1, d, startDate);
    var r := Calculate(s0, 1, 1, d, startDate).stats;
    forall q ensures Sum(r.total, q) == Increment(d, 0.0, q) {
      assert Sum(s0.total, q) == 0.0 && Hours(s0.timeSamplePeriod) == 0.0;
    }
    forall q ensures Sum(r.sample, q) == Increment(d, 0.0, q) {
      assert Sum(s0.sample, q) == 0.0;
    }
  }

  class PowerStats {
    /** `_stats`. */
    var stats: Stats
    /** `_total_reading_count`. */
    var totalReadingCount: int
    /** `_sample_reading_count`. */
    var sampleReadingCount: int

    function State(): Snapshot
      reads this
    {
      Snapshot(stats, totalReadingCount, sampleReadingCount)
    }

    /** `__init__`: `create_stats`, `clear_stats`, `reset_sample_period`. */
    constructor()
      ensures State() == Snapshot(InitialStats, 0, 0)
    {
      // `create_stats`: no `time_of_stat` or `time_peak` entry; clear and reset write the rest.
      stats := Stats(0, None, None, MinTime, ZeroScope, ZeroScope, 0.0, 0.0, 0.0);
      totalReadingCount := 0;
      sampleReadingCount := 0;
      new;
      ClearStats();
      ResetSamplePeriod();
    }

    /** `get_stats`. */
    function GetStats(): Stats
      reads this
    {
      stats
    }

    /**
     * `caclulate_stats`: the dictionary ends as Calculate says, raising where it raises; the
     * counters are read, not written.
     */
    method CaclulateStats(reading: PowerReading, startDate: int) returns (outcome: Outcome<StatsError>)
      modifies this
      ensures Calc(stats, outcome)
              == Calculate(old(stats), totalReadingCount, sampleReadingCount, reading.reading, startDate)
      ensures totalReadingCount == old(totalReadingCount) && sampleReadingCount == old(sampleReadingCount)
    {
      var d := reading.reading;
      var placeholder := PlaceholderClock(d);
      if placeholder.Err? {
        return Fail(placeholder.error);
      }
      var clock := placeholder.value;
      stats := stats.(timeOfStat := Some(DayStart(startDate) + clock));
      var power := NumberAt(d, GeneratorPower);
      if power.Err? {
        return Fail(power.error);
      }
      outcome := EnergizeStats(d, clock, power.value);
    }

    /** The statements of `caclulate_stats` after the power is read, as Energize says. */
    method EnergizeStats(d: ReadingDict, clock: int, p: real) returns (outcome: Outcome<StatsError>)
      modifies this
      ensures Calc(stats, outcome) == Energize(old(stats), d, clock, p, old(totalReadingCount), old(sampleReadingCount))
      ensures totalReadingCount == old(totalReadingCount) && sampleReadingCount == old(sampleReadingCount)
    {
      outcome := AccumulateEnergy(p * Hours(stats.timeSamplePeriod));
      if outcome.Pass? {
        outcome := MeasureStats(d, clock, p);
      }
    }

    /**
     * The energy statements of `caclulate_stats`: both energy sums grow by `energy`, then each
     * average is taken, raising ZeroDivisionError at the first zero count.
     */
    method AccumulateEnergy(energy: real) returns (outcome: Outcome<StatsError>)
      modifies this
      ensures var s2 := old(stats).(sample := AddTo(old(stats).sample, Energy, energy),
                                    total := AddTo(old(stats).total, Energy, energy));
        && (totalReadingCount == 0 ==> stats == s2 && outcome == Fail(ZeroDivision))
        && (totalReadingCount != 0 && sampleReadingCount == 0 ==>
              stats == s2.(total := Averaged(s2.total, Energy, totalReadingCount)) && outcome == Fail(ZeroDivision))
        && (totalReadingCount != 0 && sampleReadingCount != 0 ==>
              && stats == s2.(total := Averaged(s2.total, Energy, totalReadingCount),
                              sample := Averaged(s2.sample, Energy, sampleReadingCount))
              && outcome == Pass)
      ensures totalReadingCount == old(totalReadingCount) && sampleReadingCount == old(sampleReadingCount)
    {
      stats := stats.(sample := AddTo(stats.sample, Energy, energy));
      stats := stats.(total := AddTo(stats.total, Energy, energy));
      if totalReadingCount == 0 {
        return Fail(ZeroDivision);
      }
      stats := stats.(total := Averaged(stats.total, Energy, totalReadingCount));
      if sampleReadingCount == 0 {
        return Fail(ZeroDivision);
      }
      stats := stats.(sample := Averaged(stats.sample, Energy, sampleReadingCount));
      outcome := Pass;
    }

    /** The power, voltage, current and temperature statements of `caclulate_stats`. */
    method MeasureStats(d: ReadingDict, clock: int, p: real) returns (outcome: Outcome<StatsError>)
      requires totalReadingCount != 0 && sampleReadingCount != 0
      modifies this
      ensures Calc(stats, outcome)
              == Measure(old(stats), d, clock, p, old(totalReadingCount), old(sampleReadingCount))
      ensures totalReadingCount == old(totalReadingCount) && sampleReadingCount == old(sampleReadingCount)
    {
      if stats.powerPeak < p {
        stats := stats.(powerPeak := p, timePeak := Some(clock));
      }
      stats := AddAndAverage(stats, Power, p, totalReadingCount, sampleReadingCount);
      var voltage := NumberAt(d, GeneratorVoltage);
      if voltage.Err? {
        return Fail(voltage.error);
      }
      stats := AddAndAverage(stats, Voltage, voltage.value, totalReadingCount, sampleReadingCount);
      var current := NumberAt(d, GeneratorCurrent);
      if current.Err? {
        return Fail(current.error);
      }
      stats := AddAndAverage(stats, Current, current.value, totalReadingCount, sampleReadingCount);
      var temperature := NumberAt(d, GeneratorTemperature);
      if temperature.Err? {
        return Fail(temperature.error);
      }
      var t := temperature.value;
      if stats.temperatureMax < t {
        stats := stats.(temperatureMax := t);
      }
      if stats.temperatureMin > t {
        stats := stats.(temperatureMin := t);
      }
      stats := AddAndAverage(stats, Temperature, t, totalReadingCount, sampleReadingCount);
      outcome := Pass;
    }

    /** `reset_sample_period`: zero sample period, zero sample scope, zero sample count. */
    method ResetSamplePeriod()
      modifies this
      ensures State() == Snapshot(ResetSample(old(stats)), old(totalReadingCount), 0)
    {
      stats := ResetSample(stats);
      sampleReadingCount := 0;
    }

    /** `clear_stats`: the whole-run entries are cleared and the total count zeroed; the sample scope stays. */
    method ClearStats()
      modifies this
      ensures State() == Snapshot(ClearedStats(old(stats)), 0, old(sampleReadingCount))
    {
      totalReadingCount := 0;
      stats := ClearedStats(stats);
    }

    /** `set_total_voltage`, `set_total_current`, `set_total_power`, `set_total_energy`, `set_total_temperature`. */
    method SetTotal(q: Quantity, x: real)
      modifies this
      ensures State() == old(State()).(stats := old(stats).(total := WithSum(old(stats).total, q, x)))
      ensures GetTotal(q) == x
    {
      stats := stats.(total := WithSum(stats.total, q, x));
    }

    /** `get_total_voltage`, `get_total_current`, `get_total_power`, `get_total_energy`, `get_total_temperature`. */
    function GetTotal(q: Quantity): real
      reads this
    {
      Sum(stats.total, q)
    }

    /** `get_time_of_stat`: KeyError (None) until a calculation has written it. */
    function GetTimeOfStat(): Option<int>
      reads this
    {
      stats.timeOfStat
    }

    /**
     * `get_average_energy_generated_this_sample_period` and its power, voltage and temperature
     * siblings (there is none for current).
     */
    function GetSampleAverage(q: Quantity): real
      requires q != Current
      reads this
    {
      Average(stats.sample, q)
    }

    method SetTotalReadingCount(count: int)
      modifies this
      ensures State() == old(State()).(totalReadingCount := count)
    {
      totalReadingCount := count;
    }

    function GetTotalReadingCount(): int
      reads this
    {
      totalReadingCount
    }

    method SetSampleReadingCount(count: int)
      modifies this
      ensures State() == old(State()).(sampleReadingCount := count)
    {
      sampleReadingCount := count;
    }

    function GetSampleReadingCount(): int
      reads this
    {
      sampleReadingCount
    }

    method SetTimeSamplePeriod(period: int)
      modifies this
      ensures State() == old(State()).(stats := old(stats).(timeSamplePeriod := period))
    {
      stats := stats.(timeSamplePeriod := period);
    }

    function GetTimeSamplePeriod(): int
      reads this
    {
      stats.timeSamplePeriod
    }
  }
}
