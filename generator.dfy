/**
 * `Generator` (kaco2pvo/sources/Generator.py): imports inverter readings from data files. Every
 * kept line of a file becomes a PowerReading that is folded into one running PowerStats object;
 * whenever a reading starts a new minute, a snapshot PowerStats is taken as well.
 */
module Generators {
  import opened Common
  import opened Text
  import opened Numbers
  import opened Clock
  import opened PowerReadings
  import opened PowerStatistics

  /** `_time_of_first_sample_in_set` before any reading: 06:00:00 on 1900-01-01. */
  const FirstSampleDefault: int := 6 * 3600

  /** The exceptions `import_readings` lets escape. */
  datatype ImportError =
    | NoDataPath              // KeyError: `path_to_data` was never set
    | NoDateInName            // AttributeError: no file date and no yyyy-mm-dd in the file name
    | NoFileDate              // AttributeError: the file date is datetime.min, `str` has no `strftime`
    | MissingToken(index: int) // KeyError on `my_list`
    | BadClock                // ValueError: token 1 is not "%H:%M:%S"
    | BadNumber(index: int)   // ValueError from `num`

  /** A data file: the date its name carries (None when there is none) and its lines. */
  datatype DataFile = DataFile(nameDate: Option<int>, lines: seq<string>)

  /** `is_comment`. */
  predicate IsComment(line: string)
  {
    |line| > 0 && line[0] == '#'
  }

  /** `is_whitespace`: `str.isspace`. */
  predicate IsWhitespace(line: string)
  {
    IsAllSpace(line)
  }

  /** The filter in front of the csv reader: comment lines and blank lines are dropped. */
  predicate Kept(line: string)
  {
    !IsComment(line) && !IsWhitespace(line)
  }

  /** The line as the csv reader sees it: without a final "\n" or "\r\n". */
  function Content(line: string): string
  {
    var a := if |line| > 0 && line[|line| - 1] == '\n' then line[..|line| - 1] else line;
    if |a| > 0 && a[|a| - 1] == '\r' then a[..|a| - 1] else a
  }

  /** `csv.reader(..., delimiter=' ')` on one line: every space cuts, empty fields stay. */
  function Fields(line: string): seq<string>
  {
    Split(Content(line), ' ')
  }

  /** The csv reader loses nothing but the line ending: its fields hold no space and rejoin to the line. */
  lemma FieldsRejoin(line: string)
    ensures forall i :: 0 <= i < |Fields(line)| ==> ' ' !in Fields(line)[i]
    ensures Join(Fields(line), ' ') == Content(line)
  {
    JoinSplit(Content(line), ' ');
  }

  /**
   * `my_list` after a row's non-empty tokens were stored at 0, 1, 2, ...: entries past the
   * row's last token keep what earlier rows stored there.
   */
  function Stored(list: map<int, string>, tokens: seq<string>): (r: map<int, string>)
    ensures forall i :: 0 <= i < |tokens| ==> i in r && r[i] == tokens[i]
    ensures forall k :: k in list && !(0 <= k < |tokens|) ==> k in r && r[k] == list[k]
    ensures forall k :: k in r ==> k in list || 0 <= k < |tokens|
  {
    list + map i | 0 <= i < |tokens| :: tokens[i]
  }

  lemma StoredAppend(list: map<int, string>, tokens: seq<string>, x: string)
    ensures Stored(list, tokens + [x]) == Stored(list, tokens)[|tokens| := x]
  {
    var a := Stored(list, tokens + [x]);
    var b := Stored(list, tokens)[|tokens| := x];
    assert forall k :: k in a <==> k in b;
    forall k | k in a ensures a[k] == b[k] {
      if 0 <= k < |tokens| {
        assert (tokens + [x])[k] == tokens[k];
      }
    }
  }

  /** One token of the inner loop: an empty one is skipped, any other is stored at the next index. */
  lemma StoreStep(list: map<int, string>, row: seq<string>, j: nat)
    requires j < |row|
    ensures var before := NonEmpty(row[..j]);
      && NonEmpty(row[..j + 1]) == before + (if row[j] == "" then [] else [row[j]])
      && Stored(list, NonEmpty(row[..j + 1]))
         == if row[j] == "" then Stored(list, before) else Stored(list, before)[|before| := row[j]]
  {
    assert row[..j + 1] == row[..j] + [row[j]];
    NonEmptyAppend(row[..j], row[j]);
    if row[j] != "" {
      StoredAppend(list, NonEmpty(row[..j]), row[j]);
    }
  }

  /** The inner loop of `import_readings` that stores a row's non-empty tokens in `my_list`. */
  method StoreTokens(list: map<int, string>, row: seq<string>) returns (stored: map<int, string>)
    ensures stored == Stored(list, NonEmpty(row))
  {
    stored := list;
    var i := 0;
    for j := 0 to |row|
      invariant i == |NonEmpty(row[..j])|
      invariant stored == Stored(list, NonEmpty(row[..j]))
    {
      StoreStep(list, row, j);
      if row[j] != "" {
        stored := stored[i := row[j]];
        i := i + 1;
      }
    }
    assert row[..|row|] == row;
  }

  /** The reading's time and its run time (token 1, as a clock). */
  datatype Timing = Timing(time: int, runTime: int)

  /**
   * `timeofreading`: the file date, plus the clock of the data start time, plus token 1 read as
   * "%H:%M:%S". With no file date the source calls `strftime` on token 0, a string, and raises.
   */
  function ReadingTime(fileDate: int, dataStartTime: int, list: map<int, string>): (r: Result<Timing, ImportError>)
    ensures r.Ok? <==> fileDate != MinTime && 1 in list && ParseClock(list[1], ':').Some?
    ensures r.Ok? ==> r.value.runTime == ParseClock(list[1], ':').value
                      && r.value.time == fileDate + SecondOfDay(dataStartTime) + r.value.runTime
  {
    if fileDate == MinTime then Err(if 0 in list then NoFileDate else MissingToken(0))
    else if 1 !in list then Err(MissingToken(1))
    else match ParseClock(list[1], ':')
      case None => Err(BadClock)
      case Some(rtd) => Ok(Timing(fileDate + SecondOfDay(dataStartTime) + rtd, rtd))
  }

  /** Token `k` is read without error: present, and from token 3 on accepted by `num`. */
  predicate TokenReads(list: map<int, string>, k: int)
  {
    k in list && (k >= 3 ==> ParseNum(list[k]).Some?)
  }

  /** The exception the setters raise reading tokens `j` to 9 in order, if any. */
  function FirstBadToken(list: map<int, string>, j: int): (r: Option<ImportError>)
    requires 2 <= j <= 10
    ensures r.None? <==> forall k :: j <= k < 10 ==> TokenReads(list, k)
    ensures r.Some? ==>
      && (r.value.MissingToken? || r.value.BadNumber?)
      && j <= r.value.index < 10 && !TokenReads(list, r.value.index)
      && forall k :: j <= k < r.value.index ==> TokenReads(list, k)
    decreases 10 - j
  {
    if j == 10 then None
    else if j !in list then assert !TokenReads(list, j); Some(MissingToken(j))
    else if j >= 3 && ParseNum(list[j]).None? then assert !TokenReads(list, j); Some(BadNumber(j))
    else FirstBadToken(list, j + 1)
  }

  /** `num(my_list[k])`. */
  function TokenNumber(list: map<int, string>, k: int): Result<Number, ImportError>
  {
    if k !in list then Err(MissingToken(k))
    else match ParseNum(list[k])
      case None => Err(BadNumber(k))
      case Some(n) => Ok(n)
  }

  /** The number `num` reads from token `k`. */
  function TokenValue(list: map<int, string>, k: int): real
    requires k >= 3 && TokenReads(list, k)
  {
    Value(ParseNum(list[k]).value)
  }

  /**
   * The reading the setters build from the tokens on a fresh reading: placeholder the reading's
   * clock as "%H.%M.%S", run time, operating state and the seven numbers, the line current
   * under the misspelled key.
   */
  function FilledReading(list: map<int, string>, t: int, rtd: int): ReadingDict
    requires forall k :: 2 <= k < 10 ==> TokenReads(list, k)
  {
    TailFilled(HeadFilled(list, t, rtd), list)
  }

  /** The first six setters: placeholder, run time, operating state, voltage, current, power. */
  function HeadFilled(list: map<int, string>, t: int, rtd: int): ReadingDict
    requires forall k :: 2 <= k < 6 ==> TokenReads(list, k)
  {
    assert TokenReads(list, 2) && TokenReads(list, 3) && TokenReads(list, 4) && TokenReads(list, 5);
    ClearedFields()
      [Placeholder := Text(FormatClock(t, '.'))]
      [RunTimeDaily := Time(rtd)]
      [OperatingState := Text(list[2])]
      [GeneratorVoltage := Num(ParseNum(list[3]).value)]
      [GeneratorCurrent := Num(ParseNum(list[4]).value)]
      [GeneratorPower := Num(ParseNum(list[5]).value)]
  }

  /** The last four setters: line voltage, line current, line power, temperature. */
  function TailFilled(d: ReadingDict, list: map<int, string>): ReadingDict
    requires forall k :: 6 <= k < 10 ==> TokenReads(list, k)
  {
    assert TokenReads(list, 6) && TokenReads(list, 7) && TokenReads(list, 8) && TokenReads(list, 9);
    d
      [LineVoltage := Num(ParseNum(list[6]).value)]
      [LineCurrrentFeedIn := Num(ParseNum(list[7]).value)]
      [LinePowerFeedIn := Num(ParseNum(list[8]).value)]
      [GeneratorTemperature := Num(ParseNum(list[9]).value)]
  }

  /**
   * The reading the setters build is one `caclulate_stats` accepts: its placeholder reads back
   * as the clock of the time of reading and its numbers are the tokens' numbers. The line current
   * lands under the misspelled key, so the correctly spelled one keeps its cleared zero.
   */
  lemma FilledReadingReads(list: map<int, string>, t: int, rtd: int)
    requires forall k :: 2 <= k < 10 ==> TokenReads(list, k)
    ensures var d := FilledReading(list, t, rtd);
      && Readable(d)
      && PlaceholderClock(d) == Ok(SecondOfDay(t))
      && NumberAt(d, GeneratorPower) == Ok(TokenValue(list, 5))
      && NumberAt(d, GeneratorVoltage) == Ok(TokenValue(list, 3))
      && NumberAt(d, GeneratorCurrent) == Ok(TokenValue(list, 4))
      && NumberAt(d, GeneratorTemperature) == Ok(TokenValue(list, 9))
      && NumberAt(d, LineCurrrentFeedIn) == Ok(TokenValue(list, 7))
      && Lookup(d, LineCurrentFeedIn) == Some(Num(FloatNum(0.0)))
  {
    var h := HeadFilled(list, t, rtd);
    HeadEntries(list, t, rtd);
    var d := FilledReading(list, t, rtd);
    assert TokenReads(list, 7) && TokenReads(list, 9);
    assert d[GeneratorTemperature] == Num(ParseNum(list[9]).value);
    assert d[LineCurrrentFeedIn] == Num(ParseNum(list[7]).value);
    assert d[Placeholder] == h[Placeholder] && d[GeneratorPower] == h[GeneratorPower];
    assert d[GeneratorVoltage] == h[GeneratorVoltage] && d[GeneratorCurrent] == h[GeneratorCurrent];
    assert d[LineCurrentFeedIn] == h[LineCurrentFeedIn];
    ClockRoundTrip(t, '.');
  }

  /** The entries the first six setters leave for `caclulate_stats` to read. */
  lemma HeadEntries(list: map<int, string>, t: int, rtd: int)
    requires forall k :: 2 <= k < 6 ==> TokenReads(list, k)
    ensures var h := HeadFilled(list, t, rtd);
      && TokenReads(list, 3) && TokenReads(list, 4) && TokenReads(list, 5)
      && h[Placeholder] == Text(FormatClock(t, '.'))
      && h[GeneratorPower] == Num(ParseNum(list[5]).value)
      && h[GeneratorVoltage] == Num(ParseNum(list[3]).value)
      && h[GeneratorCurrent] == Num(ParseNum(list[4]).value)
      && h[LineCurrentFeedIn] == Num(FloatNum(0.0))
  {
  }

  /**
   * The whole value of a Generator: its counters, the first sample time of the current minute,
   * the file date and data start time, the stored readings and snapshots, how many entries
   * `_output` holds (each is the running PowerStats object) and that object's value.
   */
  datatype GenState = GenState(
    readingCount: int,
    sampleReadingCount: int,
    firstSample: int,
    fileDate: int,
    dataStartTime: int,
    readings: seq<ReadingDict>,
    snapshots: seq<Snapshot>,
    outputs: nat,
    running: Snapshot)

  /** Every reading in `ds` is one `caclulate_stats` accepts, checked from the last one back. */
  predicate AllReadable(ds: seq<ReadingDict>)
    decreases |ds|
  {
    |ds| == 0 || (AllReadable(ds[..|ds| - 1]) && Readable(ds[|ds| - 1]))
  }

  lemma {:induction false} AllReadableEach(ds: seq<ReadingDict>)
    ensures AllReadable(ds) <==> forall i :: 0 <= i < |ds| ==> Readable(ds[i])
    decreases |ds|
  {
    if |ds| > 0 {
      var init := ds[..|ds| - 1];
      AllReadableEach(init);
      assert forall i :: 0 <= i < |init| ==> init[i] == ds[i];
    }
  }

  /**
   * What import keeps true: the sample count is at most the reading count, there is one stored
   * reading per counted reading, at most one snapshot per reading, and every stored reading is
   * one `caclulate_stats` accepts.
   */
  predicate Inv(g: GenState)
  {
    && 0 <= g.sampleReadingCount <= g.readingCount
    && |g.readings| == g.readingCount
    && |g.snapshots| <= g.readingCount
    && AllReadable(g.readings)
  }

  /**
   * The sample period is measured from the first sample of the current minute, and is written
   * to the running stats; a reading in another minute than that first sample starts a new set.
   */
  function Window(g: GenState, t: int): GenState
  {
    var g1 := g.(running := g.running.(stats := g.running.stats.(timeSamplePeriod := t - g.firstSample)));
    if Minute(t) != Minute(g.firstSample) then g1.(firstSample := t, sampleReadingCount := 0) else g1
  }

  /**
   * The sample period the running stats receive is measured from the first sample before it
   * moves; a set closes exactly when the minute changes, and then the reading becomes the
   * first sample and the sample count restarts. Counters, readings and snapshots are untouched.
   */
  lemma WindowCloses(g: GenState, t: int)
    ensures var r := Window(g, t);
      && r.running.stats.timeSamplePeriod == t - g.firstSample
      && (Minute(t) != Minute(g.firstSample) ==> r.firstSample == t && r.sampleReadingCount == 0)
      && (Minute(t) == Minute(g.firstSample) ==>
            r.firstSample == g.firstSample && r.sampleReadingCount == g.sampleReadingCount)
      && r.readingCount == g.readingCount && r.readings == g.readings
      && r.snapshots == g.snapshots && r.outputs == g.outputs
      && r.running.stats.total == g.running.stats.total
  {
  }

  /**
   * The snapshot taken when a set starts: a fresh PowerStats with the sample period, the
   * running totals copied in, the counters, and then the same reading calculated into it.
   */
  function OneStat(tsp: int, running: Stats, n: int, m: int, d: ReadingDict, fileDate: int): Snapshot
  {
    var copied := InitialStats.(timeSamplePeriod := tsp, total := CopyTotals(running.total));
    Snapshot(Calculate(copied, n, m, d, fileDate).stats, n, m)
  }

  /**
   * The five `set_total_*(get_total_*())` calls on a fresh PowerStats, in the source's order:
   * every sum is copied, and every average keeps the fresh object's zero.
   */
  function CopyTotals(c: Scope): (r: Scope)
    ensures forall q :: Sum(r, q) == Sum(c, q)
    ensures forall q :: Average(r, q) == 0.0
  {
    WithSum(WithSum(WithSum(WithSum(WithSum(ZeroScope,
      Voltage, Sum(c, Voltage)),
      Current, Sum(c, Current)),
      Power, Sum(c, Power)),
      Energy, Sum(c, Energy)),
      Temperature, Sum(c, Temperature))
  }

  /**
   * A reading that passed every setter is counted, stored, calculated into the running stats
   * with the new counters, appended to `_output`, and, if it started a set (its minute differs
   * from that of `first`, the first sample time before this reading), snapshotted with the
   * sample period measured from `first`.
   */
  function Record(g: GenState, d: ReadingDict, t: int, first: int): GenState
  {
    var n := g.readingCount + 1;
    var m := g.sampleReadingCount + 1;
    var run := Calculate(g.running.stats, n, m, d, g.fileDate).stats;
    var g1 := g.(readingCount := n, sampleReadingCount := m, readings := g.readings + [d],
                 outputs := g.outputs + 1, running := Snapshot(run, n, m));
    if Minute(t) != Minute(first) then
      g1.(snapshots := g1.snapshots + [OneStat(t - first, run, n, m, d, g.fileDate)])
    else g1
  }

  /**
   * Recording a reading counts it in both counters, stores it after the earlier readings, adds
   * one `_output` entry, keeps the invariant, and adds a snapshot exactly when a set starts.
   */
  lemma RecordFacts(g: GenState, d: ReadingDict, t: int, first: int)
    requires Inv(g) && Readable(d)
    ensures var r := Record(g, d, t, first);
      && Inv(r)
      && r.readingCount == g.readingCount + 1
      && r.sampleReadingCount == g.sampleReadingCount + 1
      && r.readings == g.readings + [d]
      && r.outputs == g.outputs + 1
      && |r.snapshots| == |g.snapshots| + (if Minute(t) != Minute(first) then 1 else 0)
      && r.snapshots[..|g.snapshots|] == g.snapshots
  {
    assert (g.readings + [d])[..|g.readings|] == g.readings;
    RecordSnapshot(g, d, t, first);
  }

  /** Recording a readable reading keeps the invariant. */
  lemma RecordKeepsInv(g: GenState, d: ReadingDict, t: int, first: int)
    requires Inv(g) && Readable(d)
    ensures Inv(Record(g, d, t, first))
  {
    RecordFacts(g, d, t, first);
  }

  /**
   * The snapshot a new set takes is OneStat over the running stats that already include the
   * reading, with the new counters; within a set no snapshot is taken.
   */
  lemma RecordSnapshot(g: GenState, d: ReadingDict, t: int, first: int)
    ensures var r := Record(g, d, t, first);
      r.snapshots == if Minute(t) != Minute(first)
                     then g.snapshots + [OneStat(t - first, r.running.stats, r.readingCount, r.sampleReadingCount, d, g.fileDate)]
                     else g.snapshots
  {
  }

  /** The generator, `my_list`, and the exception, after a row (or a run of rows). */
  datatype Import = Import(state: GenState, tokens: map<int, string>, error: Option<ImportError>)

  /**
   * One kept line of `import_readings`: the row's tokens are stored in `my_list`, then Row.
   */
  function RowStep(g: GenState, list: map<int, string>, line: string): Import
  {
    Row(g, Stored(list, NonEmpty(Fields(line))))
  }

  /**
   * A row once its tokens are stored: time of reading, sample window, the setters, and the
   * calculations. Each exception leaves the state as it stood when raised.
   */
  function Row(g: GenState, stored: map<int, string>): Import
  {
    match ReadingTime(g.fileDate, g.dataStartTime, stored)
    case Err(e) => Import(g, stored, Some(e))
    case Ok(timing) =>
      var t := timing.time;
      var g1 := Window(g, t);
      match FirstBadToken(stored, 2)
      case Some(e) => Import(g1, stored, Some(e))
      case None =>
        Import(Record(g1, FilledReading(stored, t, timing.runTime), t, g.firstSample), stored, None)
  }

  /**
   * A row whose time of reading can be formed and whose setters all succeed records the reading
   * the setters built, after the sample window has moved to its time: `g1` is the generator
   * after the window step and `d` the reading.
   */
  lemma RowSucceeds(g: GenState, stored: map<int, string>, g1: GenState, d: ReadingDict)
    requires ReadingTime(g.fileDate, g.dataStartTime, stored).Ok?
    requires FirstBadToken(stored, 2).None?
    requires var timing := ReadingTime(g.fileDate, g.dataStartTime, stored).value;
      && g1 == Window(g, timing.time)
      && d == FilledReading(stored, timing.time, timing.runTime)
    ensures Row(g, stored) ==
      Import(Record(g1, d, ReadingTime(g.fileDate, g.dataStartTime, stored).value.time, g.firstSample), stored, None)
  {
  }

  /** A row whose time of reading cannot be formed raises before anything changes. */
  lemma RowTimeFails(g: GenState, stored: map<int, string>)
    requires ReadingTime(g.fileDate, g.dataStartTime, stored).Err?
    ensures Row(g, stored) == Import(g, stored, Some(ReadingTime(g.fileDate, g.dataStartTime, stored).error))
  {
  }

  /** A row whose setters raise has moved the sample window and recorded nothing. */
  lemma RowSetterFails(g: GenState, stored: map<int, string>)
    requires ReadingTime(g.fileDate, g.dataStartTime, stored).Ok?
    requires FirstBadToken(stored, 2).Some?
    ensures Row(g, stored) == Import(Window(g, ReadingTime(g.fileDate, g.dataStartTime, stored).value.time),
                                     stored, FirstBadToken(stored, 2))
  {
  }

  /**
   * A row adds exactly one reading and one `_output` entry or, when it raises, none; the
   * earlier readings are never altered; the invariant is kept; after a reading the sample
   * count is at least one. The row goes through exactly when the time of reading can be formed
   * and every token the setters read is usable.
   */
  lemma RowCounts(g: GenState, stored: map<int, string>)
    requires Inv(g)
    ensures var r := Row(g, stored);
      && Inv(r.state)
      && r.tokens == stored
      && (r.error.None? <==>
            ReadingTime(g.fileDate, g.dataStartTime, stored).Ok? && FirstBadToken(stored, 2).None?)
      && (r.error.None? ==>
            && r.state.readingCount == g.readingCount + 1
            && 1 <= r.state.sampleReadingCount
            && r.state.outputs == g.outputs + 1
            && |r.state.readings| == |g.readings| + 1
            && r.state.readings[..|g.readings|] == g.readings)
      && (r.error.Some? ==>
            && r.state.readingCount == g.readingCount
            && r.state.readings == g.readings
            && r.state.snapshots == g.snapshots
            && r.state.outputs == g.outputs)
  {
    match ReadingTime(g.fileDate, g.dataStartTime, stored)
    case Err(_) =>
      RowTimeFails(g, stored);
    case Ok(timing) =>
      var t := timing.time;
      var w := Window(g, t);
      match FirstBadToken(stored, 2)
      case Some(_) =>
        RowSetterFails(g, stored);
      case None =>
        RowAdds(g, stored);
  }

  /** The passing half of RowCounts: one reading and one output more, the earlier ones intact. */
  lemma RowAdds(g: GenState, stored: map<int, string>)
    requires Inv(g)
    requires ReadingTime(g.fileDate, g.dataStartTime, stored).Ok? && FirstBadToken(stored, 2).None?
    ensures var r := Row(g, stored);
      && Inv(r.state) && r.tokens == stored && r.error.None?
      && r.state.readingCount == g.readingCount + 1
      && 1 <= r.state.sampleReadingCount
      && r.state.outputs == g.outputs + 1
      && |r.state.readings| == |g.readings| + 1
      && r.state.readings[..|g.readings|] == g.readings
  {
    var timing := ReadingTime(g.fileDate, g.dataStartTime, stored).value;
    var t := timing.time;
    var w := Window(g, t);
    var d := FilledReading(stored, t, timing.runTime);
    FilledReadingReads(stored, t, timing.runTime);
    RowSucceeds(g, stored, w, d);
    RecordFacts(w, d, t, g.firstSample);
    assert (g.readings + [d])[..|g.readings|] == g.readings;
  }

  /**
   * Recording a reading runs `caclulate_stats` on the running stats without an exception (the
   * counters are at least one and the reading is one it accepts). The time of the stats becomes
   * the file date's day plus the reading's placeholder clock, and every running sum grows by
   * that reading's contribution, energy over the running sample period.
   */
  lemma RecordCalculates(g: GenState, d: ReadingDict, t: int, first: int)
    requires Inv(g) && Readable(d)
    ensures var r := Record(g, d, t, first);
      && Calculate(g.running.stats, r.readingCount, r.sampleReadingCount, d, g.fileDate).outcome.Pass?
      && r.running.stats.timeOfStat == Some(DayStart(g.fileDate) + PlaceholderClock(d).value)
      && forall q :: Sum(r.running.stats.total, q)
                     == Sum(g.running.stats.total, q) + Increment(d, Hours(g.running.stats.timeSamplePeriod), q)
  {
    var n := g.readingCount + 1;
    var m := g.sampleReadingCount + 1;
    CalculateSucceeds(g.running.stats, n, m, d, g.fileDate);
    CalculateAccumulates(g.running.stats, n, m, d, g.fileDate);
  }

  /**
   * A reading that starts a set is counted twice in the snapshot it takes. Record hands OneStat
   * the running stats after `caclulate_stats`, which already include the reading; the snapshot
   * copies their totals and then calculates the same reading into them, so each of its sums is
   * the running sum plus the reading's contribution once more, energy over the snapshot's period.
   */
  lemma SnapshotCountsReadingTwice(tsp: int, running: Stats, n: int, m: int, d: ReadingDict, fileDate: int)
    requires Readable(d) && n != 0 && m != 0
    ensures var snap := OneStat(tsp, running, n, m, d, fileDate);
      && snap.totalReadingCount == n && snap.sampleReadingCount == m
      && forall q :: Sum(snap.stats.total, q) == Sum(running.total, q) + Increment(d, Hours(tsp), q)
  {
    CalculateAccumulates(InitialStats.(timeSamplePeriod := tsp, total := CopyTotals(running.total)), n, m, d, fileDate);
  }

  /**
   * A row with too few tokens does not raise when an earlier row left tokens at the missing
   * places: `my_list` is kept across rows, so the stale tokens are read as this row's fields.
   */
  lemma ShortRowReusesTokens(list: map<int, string>, tokens: seq<string>)
    requires forall k :: 2 <= k < 10 ==> TokenReads(list, k)
    requires |tokens| <= 2
    ensures FirstBadToken(Stored(list, tokens), 2).None?
    ensures forall k :: 2 <= k < 10 ==> k in Stored(list, tokens) && Stored(list, tokens)[k] == list[k]
  {
    var stored := Stored(list, tokens);
    forall k | 2 <= k < 10 ensures k in stored && stored[k] == list[k] && TokenReads(stored, k) {
      assert TokenReads(list, k);
    }
  }

  /** The rows of one file, in order, up to the first exception. */
  function ImportLines(g: GenState, list: map<int, string>, lines: seq<string>): Import
    decreases |lines|
  {
    if lines == [] then Import(g, list, None)
    else
      var r := ImportLines(g, list, lines[..|lines| - 1]);
      var line := lines[|lines| - 1];
      if r.error.Some? || !Kept(line) then r else RowStep(r.state, r.tokens, line)
  }

  /** One more line: the rows before it, then that line unless an earlier one raised or it is dropped. */
  lemma ImportLinesStep(g: GenState, list: map<int, string>, lines: seq<string>, j: nat)
    requires j < |lines|
    ensures var r := ImportLines(g, list, lines[..j]);
      ImportLines(g, list, lines[..j + 1])
        == if r.error.Some? || !Kept(lines[j]) then r else RowStep(r.state, r.tokens, lines[j])
  {
    assert lines[..j + 1][..j] == lines[..j];
  }

  /** How many lines the filter keeps. */
  function KeptCount(lines: seq<string>): nat
    decreases |lines|
  {
    if lines == [] then 0
    else KeptCount(lines[..|lines| - 1]) + (if Kept(lines[|lines| - 1]) then 1 else 0)
  }

  /** Once a row has raised, the later lines change nothing. */
  lemma {:induction false} LinesStopAtError(g: GenState, list: map<int, string>, lines: seq<string>, j: nat)
    requires j <= |lines| && ImportLines(g, list, lines[..j]).error.Some?
    ensures ImportLines(g, list, lines) == ImportLines(g, list, lines[..j])
    decreases |lines| - j
  {
    if j == |lines| {
      assert lines[..j] == lines;
    } else {
      assert lines[..j + 1][..j] == lines[..j];
      LinesStopAtError(g, list, lines, j + 1);
    }
  }

  /**
   * Importing a file's lines: every kept line before the first exception adds one reading and
   * one `_output` entry, the earlier readings stay as they were, and the invariant holds.
   */
  lemma {:induction false} ImportLinesCounts(g: GenState, list: map<int, string>, lines: seq<string>)
    requires Inv(g)
    ensures var r := ImportLines(g, list, lines);
      && Inv(r.state)
      && g.readingCount <= r.state.readingCount <= g.readingCount + KeptCount(lines)
      && (r.error.None? ==> r.state.readingCount == g.readingCount + KeptCount(lines))
      && r.state.outputs == g.outputs + (r.state.readingCount - g.readingCount)
      && g.readings <= r.state.readings
    decreases |lines|
  {
    if lines != [] {
      var init := lines[..|lines| - 1];
      var line := lines[|lines| - 1];
      ImportLinesCounts(g, list, init);
      LineCounts(ImportLines(g, list, init), line);
    }
  }

  /** One more line: a kept line after an error-free run adds at most one reading and one output. */
  lemma LineCounts(r: Import, line: string)
    requires Inv(r.state)
    ensures var r' := if r.error.Some? || !Kept(line) then r else RowStep(r.state, r.tokens, line);
      && Inv(r'.state)
      && r.state.readingCount <= r'.state.readingCount
      && r'.state.readingCount <= r.state.readingCount + (if Kept(line) then 1 else 0)
      && (r'.error.None? ==>
            r.error.None? && r'.state.readingCount == r.state.readingCount + (if Kept(line) then 1 else 0))
      && r'.state.outputs - r.state.outputs == r'.state.readingCount - r.state.readingCount
      && r.state.readings <= r'.state.readings
  {
    if r.error.None? && Kept(line) {
      RowCounts(r.state, Stored(r.tokens, NonEmpty(Fields(line))));
      var r' := RowStep(r.state, r.tokens, line);
      if r'.error.None? {
        assert r'.state.readings[..|r.state.readings|] == r.state.readings;
      }
    }
  }

  /** The readings of one file, after the file date step. */
  function ImportFile(g: GenState, list: map<int, string>, f: DataFile): Import
  {
    if g.fileDate == MinTime then
      match f.nameDate
      case None => Import(g, list, Some(NoDateInName))
      case Some(date) => ImportLines(g.(fileDate := date), list, f.lines)
    else ImportLines(g, list, f.lines)
  }

  /** The files in order, up to the first exception; `my_list` carries over between files. */
  function ImportFiles(g: GenState, list: map<int, string>, files: seq<DataFile>): Import
    decreases |files|
  {
    if files == [] then Import(g, list, None)
    else
      var r := ImportFiles(g, list, files[..|files| - 1]);
      if r.error.Some? then r else ImportFile(r.state, r.tokens, files[|files| - 1])
  }

  lemma {:induction false} FilesStopAtError(g: GenState, list: map<int, string>, files: seq<DataFile>, i: nat)
    requires i <= |files| && ImportFiles(g, list, files[..i]).error.Some?
    ensures ImportFiles(g, list, files) == ImportFiles(g, list, files[..i])
    decreases |files| - i
  {
    if i == |files| {
      assert files[..i] == files;
    } else {
      assert files[..i + 1][..i] == files[..i];
      FilesStopAtError(g, list, files, i + 1);
    }
  }

  /** `clear_generator` on the value: `_output` and the first sample time are not touched. */
  function Cleared(g: GenState): GenState
  {
    g.(readingCount := 0, sampleReadingCount := 0, fileDate := MinTime, dataStartTime := MinTime,
       readings := [], snapshots := [],
       running := Snapshot(ClearedStats(g.running.stats), 0, g.running.sampleReadingCount))
  }

  class Generator {
    /** `_running_stat`: one object, appended to `_output` once per reading. */
    const runningStat: PowerStats
    /** `_output`. */
    var output: seq<PowerStats>
    /** `_myreadings`: the reading dictionaries, which nothing changes once stored. */
    var myReadings: seq<ReadingDict>
    /** `_mystats`: the snapshots, which nothing changes once stored. */
    var myStats: seq<Snapshot>
    /** `_reading_count`. */
    var readingCount: int
    /** `_sample_reading_count`. */
    var sampleReadingCount: int
    /** `_time_of_first_sample_in_set`. */
    var timeOfFirstSampleInSet: int
    /** `_generator['file_date']`. */
    var fileDate: int
    /** `_generator['data_start_time']`. */
    var dataStartTime: int
    /** `_generator['path_to_data']`; None until set. */
    var pathToData: Option<string>

    function State(): GenState
      reads this, runningStat
    {
      GenState(readingCount, sampleReadingCount, timeOfFirstSampleInSet, fileDate, dataStartTime,
               myReadings, myStats, |output|, runningStat.State())
    }

    ghost predicate Valid()
      reads this, runningStat
    {
      Inv(State()) && forall s :: s in output ==> s == runningStat
    }

    /** `__init__`: the class attributes' starting values, then `clear_generator`. */
    constructor()
      ensures Valid()
      ensures State() == Cleared(GenState(0, 0, FirstSampleDefault, MinTime, MinTime, [], [], 0,
                                          Snapshot(InitialStats, 0, 0)))
      ensures output == [] && pathToData.None?
    {
      runningStat := new PowerStats();
      output := [];
      myReadings := [];
      myStats := [];
      readingCount := 0;
      sampleReadingCount := 0;
      timeOfFirstSampleInSet := FirstSampleDefault;
      fileDate := MinTime;
      dataStartTime := MinTime;
      pathToData := None;
      new;
      ClearGenerator();
    }

    /** `clear_generator`: counters, dates, readings and snapshots reset; running stats cleared. */
    method ClearGenerator()
      requires forall s :: s in output ==> s == runningStat
      modifies this, runningStat
      ensures Valid()
      ensures State() == Cleared(old(State()))
      ensures output == old(output) && pathToData == old(pathToData)
    {
      dataStartTime := MinTime;
      fileDate := MinTime;
      readingCount := 0;
      sampleReadingCount := 0;
      myReadings := [];
      myStats := [];
      runningStat.ClearStats();
    }

    method SetFileDate(date: int)
      modifies this
      ensures State() == old(State()).(fileDate := date)
      ensures output == old(output) && pathToData == old(pathToData)
    {
      fileDate := date;
    }

    function GetFileDate(): int
      reads this
    {
      fileDate
    }

    method SetDataStartTime(start: int)
      modifies this
      ensures State() == old(State()).(dataStartTime := start)
      ensures output == old(output) && pathToData == old(pathToData)
    {
      dataStartTime := start;
    }

    function GetDataStartTime(): int
      reads this
    {
      dataStartTime
    }

    method SetPathToData(path: string)
      modifies this
      ensures State() == old(State()) && output == old(output) && pathToData == Some(path)
    {
      pathToData := Some(path);
    }

    /** `get_is_reading_from_file`: None for the KeyError before a path is set. */
    function GetIsReadingFromFile(): Option<bool>
      reads this
    {
      match pathToData
      case None => None
      case Some(p) => Some(p != "")
    }

    function GetNumberOfReadings(): int
      reads this
    {
      readingCount
    }

    function GetReadings(): seq<ReadingDict>
      reads this
    {
      myReadings
    }

    function GetStats(): seq<Snapshot>
      reads this
    {
      myStats
    }

    function GetOutput(): seq<PowerStats>
      reads this
    {
      output
    }

    /**
     * `import_readings` over the files the data path names, in order: each file's date step,
     * then its kept lines row by row, stopping at the first exception.
     */
    method ImportReadings(files: seq<DataFile>) returns (error: Option<ImportError>)
      requires Valid()
      modifies this, runningStat
      ensures Valid()
      ensures pathToData.None? ==> error == Some(NoDataPath) && State() == old(State())
      ensures pathToData == Some("") ==> error.None? && State() == old(State())
      ensures pathToData.Some? && pathToData.value != "" ==>
        var r := ImportFiles(old(State()), map[], files);
        State() == r.state && error == r.error
      ensures pathToData == old(pathToData)
    {
      if pathToData.None? {
        return Some(NoDataPath);
      }
      if pathToData.value == "" {
        return None;
      }
      ghost var g0 := State();
      var myList: map<int, string> := map[];
      error := None;
      var i := 0;
      while i < |files| && error.None?
        invariant 0 <= i <= |files|
        invariant Valid() && pathToData == old(pathToData)
        invariant Import(State(), myList, error) == ImportFiles(g0, map[], files[..i])
      {
        assert files[..i + 1][..i] == files[..i];
        myList, error := ReadFile(myList, files[i]);
        i := i + 1;
      }
      if error.Some? {
        FilesStopAtError(g0, map[], files, i);
      } else {
        assert files[..i] == files;
      }
    }

    /** One file of `import_readings`: the date from its name when none is set, then its lines. */
    method ReadFile(list: map<int, string>, f: DataFile) returns (stored: map<int, string>, error: Option<ImportError>)
      requires Valid()
      modifies this, runningStat
      ensures Valid() && pathToData == old(pathToData)
      ensures Import(State(), stored, error) == ImportFile(old(State()), list, f)
    {
      if fileDate == MinTime {
        if f.nameDate.None? {
          return list, Some(NoDateInName);
        }
        SetFileDate(f.nameDate.value);
      }
      stored, error := ReadLines(list, f.lines);
    }

    /** The lines of one file in order, comments and blank lines skipped, up to the first exception. */
    method ReadLines(list: map<int, string>, lines: seq<string>) returns (stored: map<int, string>, error: Option<ImportError>)
      requires Valid()
      modifies this, runningStat
      ensures Valid() && pathToData == old(pathToData)
      ensures Import(State(), stored, error) == ImportLines(old(State()), list, lines)
    {
      ghost var g1 := State();
      stored := list;
      error := None;
      var j := 0;
      while j < |lines| && error.None?
        invariant 0 <= j <= |lines|
        invariant Valid() && pathToData == old(pathToData)
        invariant Import(State(), stored, error) == ImportLines(g1, list, lines[..j])
      {
        ImportLinesStep(g1, list, lines, j);
        var line := lines[j];
        if !IsComment(line) && !IsWhitespace(line) {
          stored, error := ImportRow(stored, line);
        }
        j := j + 1;
      }
      if error.Some? {
        LinesStopAtError(g1, list, lines, j);
      } else {
        assert lines[..j] == lines;
      }
    }

    /** One kept line of `import_readings`. */
    method ImportRow(list: map<int, string>, line: string) returns (stored: map<int, string>, error: Option<ImportError>)
      requires Valid()
      modifies this, runningStat
      ensures Valid() && pathToData == old(pathToData)
      ensures Import(State(), stored, error) == RowStep(old(State()), list, line)
    {
      stored := StoreTokens(list, Fields(line));
      error := ImportTokens(stored);
    }

    /** The rest of a row once its tokens are stored. */
    method ImportTokens(stored: map<int, string>) returns (error: Option<ImportError>)
      requires Valid()
      modifies this, runningStat
      ensures Valid() && pathToData == old(pathToData)
      ensures Import(State(), stored, error) == Row(old(State()), stored)
    {
      var reading := new PowerReading();
      var timing := ReadingTime(fileDate, dataStartTime, stored);
      if timing.Err? {
        RowTimeFails(State(), stored);
        return Some(timing.error);
      }
      error := ImportTimed(reading, stored, timing.value);
    }

    /** A row whose time of reading is known: the sample window, the setters, the recording. */
    method ImportTimed(reading: PowerReading, stored: map<int, string>, timing: Timing) returns (error: Option<ImportError>)
      requires Valid() && reading.reading == ClearedFields()
      requires ReadingTime(fileDate, dataStartTime, stored) == Ok(timing)
      modifies this, runningStat, reading
      ensures Valid() && pathToData == old(pathToData)
      ensures Import(State(), stored, error) == Row(old(State()), stored)
    {
      ghost var g0 := State();
      assert ReadingTime(g0.fileDate, g0.dataStartTime, stored) == Ok(timing);
      var t := timing.time;
      var first := timeOfFirstSampleInSet;
      MarkWindow(t);
      error := FillReading(reading, stored, t, timing.runTime);
      if error.Some? {
        RowSetterFails(g0, stored);
        return;
      }
      FilledReadingReads(stored, t, timing.runTime);
      RowSucceeds(g0, stored, State(), reading.reading);
      RecordRow(reading, t, first);
    }

    /** Recording a reading the setters filled keeps the generator valid. */
    method RecordRow(reading: PowerReading, t: int, first: int)
      requires Valid() && Readable(reading.reading)
      modifies this, runningStat
      ensures State() == Record(old(State()), old(reading.reading), t, first)
      ensures Valid() && pathToData == old(pathToData)
    {
      RecordKeepsInv(State(), reading.reading, t, first);
      AddReading(reading, t, first);
    }

    /**
     * The sample period is written to the running stats; a reading in another minute than the
     * first sample of the set becomes the first sample of a new set.
     */
    method MarkWindow(t: int)
      requires Valid()
      modifies this, runningStat
      ensures State() == Window(old(State()), t)
      ensures output == old(output) && pathToData == old(pathToData)
      ensures Valid()
    {
      var tsp := t - timeOfFirstSampleInSet;
      runningStat.SetTimeSamplePeriod(tsp);
      if Minute(t) != Minute(timeOfFirstSampleInSet) {
        timeOfFirstSampleInSet := t;
        sampleReadingCount := 0;
      }
    }

    /** The setters on a fresh reading, each reading its token, raising at the first bad one. */
    static method FillReading(reading: PowerReading, list: map<int, string>, t: int, rtd: int)
      returns (error: Option<ImportError>)
      requires reading.reading == ClearedFields()
      modifies reading
      ensures error == FirstBadToken(list, 2)
      ensures error.None? ==> reading.reading == FilledReading(list, t, rtd)
    {
      error := FillHead(reading, list, t, rtd);
      if error.None? {
        error := FillTail(reading, list);
      }
    }

    /** The first six setters, raising at the first bad token among 2 to 5. */
    static method FillHead(reading: PowerReading, list: map<int, string>, t: int, rtd: int)
      returns (error: Option<ImportError>)
      requires reading.reading == ClearedFields()
      modifies reading
      ensures error.Some? ==> error == FirstBadToken(list, 2)
      ensures error.None? ==>
        && (forall k :: 2 <= k < 6 ==> TokenReads(list, k))
        && FirstBadToken(list, 2) == FirstBadToken(list, 6)
        && reading.reading == HeadFilled(list, t, rtd)
    {
      reading.SetPlaceholder(Text(FormatClock(t, '.')));
      reading.SetRunTimeDaily(Time(rtd));
      if 2 !in list {
        return Some(MissingToken(2));
      }
      reading.SetOperatingState(Text(list[2]));
      assert FirstBadToken(list, 2) == FirstBadToken(list, 3);
      var n := TokenNumber(list, 3);
      if n.Err? {
        return Some(n.error);
      }
      assert FirstBadToken(list, 2) == FirstBadToken(list, 4);
      reading.SetGeneratorVoltage(Num(n.value));
      n := TokenNumber(list, 4);
      if n.Err? {
        return Some(n.error);
      }
      assert FirstBadToken(list, 2) == FirstBadToken(list, 5);
      reading.SetGeneratorCurrent(Num(n.value));
      n := TokenNumber(list, 5);
      if n.Err? {
        return Some(n.error);
      }
      assert FirstBadToken(list, 2) == FirstBadToken(list, 6);
      reading.SetGeneratorPower(Num(n.value));
      assert TokenReads(list, 2) && TokenReads(list, 3) && TokenReads(list, 4) && TokenReads(list, 5);
      error := None;
    }

    /** The last four setters, raising at the first bad token among 6 to 9. */
    static method FillTail(reading: PowerReading, list: map<int, string>) returns (error: Option<ImportError>)
      modifies reading
      ensures error.Some? ==> error == FirstBadToken(list, 6)
      ensures error.None? ==>
        && FirstBadToken(list, 6).None?
        && reading.reading == TailFilled(old(reading.reading), list)
    {
      var n := TokenNumber(list, 6);
      if n.Err? {
        return Some(n.error);
      }
      assert FirstBadToken(list, 6) == FirstBadToken(list, 7);
      reading.SetLineVoltage(Num(n.value));
      n := TokenNumber(list, 7);
      if n.Err? {
        return Some(n.error);
      }
      assert FirstBadToken(list, 6) == FirstBadToken(list, 8);
      reading.SetLineCurrentFeedIn(Num(n.value));
      n := TokenNumber(list, 8);
      if n.Err? {
        return Some(n.error);
      }
      assert FirstBadToken(list, 6) == FirstBadToken(list, 9);
      reading.SetLinePowerFeedIn(Num(n.value));
      n := TokenNumber(list, 9);
      if n.Err? {
        return Some(n.error);
      }
      assert FirstBadToken(list, 6) == FirstBadToken(list, 10);
      reading.SetGeneratorTemperature(Num(n.value));
      assert TokenReads(list, 6) && TokenReads(list, 7) && TokenReads(list, 8) && TokenReads(list, 9);
      error := None;
    }

    /** Counting, storing and calculating a reading that passed every setter. */
    method AddReading(reading: PowerReading, t: int, first: int)
      modifies this, runningStat
      ensures State() == Record(old(State()), old(reading.reading), t, first)
      ensures output == old(output) + [runningStat] && pathToData == old(pathToData)
    {
      CountReading(reading);
      var outcome := runningStat.CaclulateStats(reading, fileDate);
      output := output + [runningStat];
      assert State() == Record(old(State()), old(reading.reading), t, t);
      if Minute(t) != Minute(first) {
        TakeSnapshot(reading, t - first);
      }
    }

    /** Both counters go up by one, the reading is stored, and the running stats get the new counts. */
    method CountReading(reading: PowerReading)
      modifies this, runningStat
      ensures var g := old(State());
        State() == g.(readingCount := g.readingCount + 1, sampleReadingCount := g.sampleReadingCount + 1,
                      readings := g.readings + [reading.reading],
                      running := Snapshot(g.running.stats, g.readingCount + 1, g.sampleReadingCount + 1))
      ensures output == old(output) && pathToData == old(pathToData) && reading.reading == old(reading.reading)
    {
      readingCount := readingCount + 1;
      sampleReadingCount := sampleReadingCount + 1;
      myReadings := myReadings + [reading.reading];
      runningStat.SetTotalReadingCount(readingCount);
      runningStat.SetSampleReadingCount(sampleReadingCount);
    }

    /**
     * The `_add_to_stack` branch. The snapshot object is created here rather than before the
     * reading time is computed; nothing reads it in between.
     */
    method TakeSnapshot(reading: PowerReading, tsp: int)
      modifies this
      ensures State() == old(State()).(snapshots := old(myStats) + [OneStat(tsp, runningStat.stats, readingCount,
                                                                           sampleReadingCount, reading.reading, fileDate)])
      ensures output == old(output) && pathToData == old(pathToData)
    {
      var onestat := new PowerStats();
      onestat.SetTimeSamplePeriod(tsp);
      onestat.SetTotal(Voltage, runningStat.GetTotal(Voltage));
      onestat.SetTotal(Current, runningStat.GetTotal(Current));
      onestat.SetTotal(Power, runningStat.GetTotal(Power));
      onestat.SetTotal(Energy, runningStat.GetTotal(Energy));
      onestat.SetTotal(Temperature, runningStat.GetTotal(Temperature));
      onestat.SetTotalReadingCount(readingCount);
      onestat.SetSampleReadingCount(sampleReadingCount);
      var outcome := onestat.CaclulateStats(reading, fileDate);
      myStats := myStats + [onestat.State()];
    }
  }
}
