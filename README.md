# KacoPV statistics pipeline in Dafny

A model of the statistics pipeline of KacoPV, which reads a Kaco Powador inverter's records
and turns them into status and end-of-day figures for pvoutput.org. There are two generations of
the pipeline, and the model covers both.

- **The legacy script `kaco2pvo.py`.**
  - The serial loop cuts the incoming character buffer into records at each carriage return (`LegacyFraming`).
  - `processReading` splits a record into ten fields, converts fields 3 to 9 with `num` and clamps the generated power (`Numbers`, `LegacyParser`).
  - `addReading` folds the reading into module-level totals. These are a status window, posted on five-minute marks, and a day, posted once after 23:45. The day also tracks its power peak and temperature range (`LegacyMonitor`).
  - The module globals are the fields of the `Monitor` class. Its methods are proved against the pure functions `Accumulate`, `StatusGate`, `DailyGate` and `AddReadingStep`.
- **The refactored classes in `kaco2pvo/sources/`.**
  - `PowerReading` is a dictionary of fields with setters and getters (`PowerReadings`).
  - `PowerStats` keeps sums and averages for two scopes, the whole run and the current sample period. It also keeps the power peak and the temperature extremes. `caclulate_stats` folds one reading into them (`PowerStatistics`). It reads the placeholder through a `get_placeholder` getter that `PowerReading` does not define; the model supplies that getter (see "## Left out").
  - `Generator.import_readings` reads data files line by line (`Generators`). For each line it:
    - stores the line's tokens;
    - computes the time of reading;
    - moves the one-minute sample window;
    - fills a reading;
    - calculates the reading into one running `PowerStats`;
    - takes a snapshot `PowerStats` whenever a reading starts a new minute.

Shared pieces:

- `Text`: Python's `split`, `join` and `isspace`.
- `Clock`: refactored times, as seconds since 1900-01-01.
- `CivilTime`: the legacy script's datetime fields.
- `Tracking`: the strict peak and min/max trackers, used by both generations.
- `Common`: `Option`, `Result` and `Outcome`. A Python exception becomes an error value, and the state is left as it stood when the exception was raised.

### Errors and windows as the code has them

- A record that does not parse is not dropped. The IndexError or ValueError leaves `processReading` and ends the serial loop (kaco2pvo.py:451-457). `LegacyMonitor.RunParsed` stops at the first such record.
- Averages are recomputed eagerly on every `caclulate_stats`. A zero count raises ZeroDivisionError part-way through the update; there is no "unavailable" value (`PowerStatistics.CalculateFailsPartway`).
- The refactored sample window closes when the reading's minute differs from that of the first sample in the set. Energy is power times the time since that first sample, not a fixed sample time.

### Corrected behaviour in the legacy day

On the four points listed under "## Findings", the legacy state machine runs the corrected behaviour, and each point also has a member that models the code as written:

- the full-day flag is set when the run starts before 09:00 (`FullDay`; as written: `FullDayAsWritten`);
- the day peak keeps the full power (`Tracking.TrackPeak`; as written: `TrackPeakAsWritten`, which stores `int(gen)`);
- a summary is due after 23:45 of the current date, on a later calendar date than the last one (`DailyDue`; as written: `DailyDueAsWritten`, with the start date's cutoff and the day of the month).

The rows marked "(corrected)" below state properties of this corrected program, and "## Left out" names each of them.

### Behaviour kept as written

These behaviours are modelled as the code has them, with a lemma that exhibits each:

- The line-current setter and getter use the key `line_currrent_feed_in`, but `clear_reading` writes `line_current_feed_in`. On a fresh reading the getter therefore raises (`FreshLineCurrentMissing`).
- `my_list` outlives each row, so a short row silently reuses an earlier row's tokens (`ShortRowReusesTokens`).
- A snapshot copies the running totals after they already include the reading, then calculates the same reading into them again. The reading is therefore counted twice in the snapshot (`SnapshotCountsReadingTwice`).
- A fresh reading's placeholder `00.00.0000` is rejected by `strptime` (`ClearedReadingRejected`).

## Model

| member | source | states |
|---|---|---|
| Numbers.ParseNum | kaco2pvo.py:171-176 | `num` gives an int only for text without a '.', a float only for text with one, and rejects the empty field; anything else is None (ValueError) |
| Numbers.ParseIntRoundTrip | kaco2pvo.py:171-176 | writing any int in decimal and reading it back with `num` gives the same value, still an int |
| Numbers.ParseDecimal | kaco2pvo.py:171-176 | digits `a`, a '.', digits `b` (with a digit somewhere) read back as the float a + 0.b |
| LegacyParser.Clamp | kaco2pvo.py:405-408 | the clamped power lies in [0, 6000], is 0 exactly when the input is below 7.5, equals the input inside [7.5, 6000] and is 6000 above it |
| LegacyParser.FirstError | kaco2pvo.py:383-402 | no error exactly when fields i..9 all exist and fields 3..9 are numbers; otherwise the first failure in field order, IndexError at the first missing field or ValueError at the first non-number |
| LegacyParser.ParseFieldsOutcome | kaco2pvo.py:383-413 | a record parses iff it has ten readable fields; the reading then holds fields 1-2 as text, the `num` values of fields 3-9 with the power clamped, and the UTC time; otherwise the error is the first one met |
| LegacyParser.ParseWrittenRecord | kaco2pvo.py:383-413 | ten words joined by single spaces, words 3 to 9 numbers, parse back to a reading with the UTC time, words 1 and 2 as run time and operating state, and the `num` values of words 3 to 9 under their seven fields (power clamped) |
| Text.Words | kaco2pvo.py:383 | `str.split()` yields only non-empty whitespace-free words |
| Text.WordsOfJoin | kaco2pvo.py:383 | words joined by single spaces split back into the same words |
| Text.Split | kaco2pvo.py:449 | `split('\r')` yields at least one part and no part contains the separator |
| Text.JoinSplit | kaco2pvo.py:449 | joining the parts of a split with the separator gives back the string |
| Text.SplitJoin | kaco2pvo.py:449 | splitting a join of separator-free parts gives back the parts |
| Text.NonEmpty | kaco2pvo/sources/Generator.py:162-166 | every kept token is a non-empty token of the row, every non-empty token is kept, and never more than the row had |
| Text.NonEmptyAppend | kaco2pvo/sources/Generator.py:162-166 | the kept tokens keep the row's order: one more token is appended to the kept ones exactly when it is non-empty |
| LegacyFraming.SerialBuffer.constructor | kaco2pvo.py:439 | the buffer starts empty and holds no record end |
| LegacyFraming.SerialBuffer.Receive | kaco2pvo.py:442-452 | the returned records followed by the new buffer, joined with '\r', are exactly the old buffer plus the chunk; no record and no leftover holds a '\r'; records come out iff the chunk holds a '\r' |
| LegacyFraming.CutRecords | kaco2pvo.py:448-450 | a buffer holding a '\r' splits into at least two parts, and the parts before the last, rejoined with the last, give the buffer |
| LegacyMonitor.Trunc | kaco2pvo.py:356 | Python's `int()` on a float truncates toward zero: the result is within one of the input on the zero side |
| LegacyMonitor.Initial | kaco2pvo.py:149-168 | (corrected) the globals start with empty window and day, last status and last output at `datetime.min`, and the full-day flag set iff the run started before the sunrise hour |
| LegacyMonitor.Accumulate | kaco2pvo.py:309-327 | (corrected) a reading adds exactly one to both reading counts, keeps them non-negative, and leaves the gate times and the full-day flag alone |
| LegacyMonitor.StatusGate | kaco2pvo.py:328-349 | a status is produced iff the minute is a multiple of 5 and differs from the last status's; it carries the window's mean power and voltage and today's energy; the last-status time moves whether or not the post succeeds, the window empties only on success, the day is untouched |
| LegacyMonitor.DailyGate | kaco2pvo.py:355-375 | (corrected) a summary is produced iff past 23:45 on a later date than the last one; it carries 24 times the truncated mean power, the truncated peak with its time and the temperature range; the comment is bare iff the day was full; the day restarts only on success; afterwards the day counts as full |
| LegacyMonitor.AddReadingStep | kaco2pvo.py:299-376 | (corrected) each upload goes out exactly when its gate is due, and its averages include the reading just added; without an upload the reading stays counted |
| LegacyMonitor.Steps | kaco2pvo.py:299-376 | any run of readings keeps both reading counts non-negative |
| LegacyMonitor.DailyTotalsWithoutUpload | kaco2pvo.py:314-327 | (corrected) while no summary falls due, the day holds the plain sum of powers, energy = sum × 10/3600 h, one count per reading, the peak tracker run over the readings and the range tracker run over the temperatures |
| LegacyMonitor.DayPeakIsFirstMaximum | kaco2pvo.py:321-323 | (corrected) from fresh day totals the peak is at least every reading's power, and it is either the starting zero or the first reading that attains it, with that reading's time |
| LegacyMonitor.DayRangeCoversReadings | kaco2pvo.py:324-327 | (corrected) while no summary falls due, every temperature of the day lies between the tracked minimum and maximum |
| LegacyMonitor.WindowTotalsWithoutStatus | kaco2pvo.py:309-313 | while no status falls due, the window holds the plain sum of powers and one count per reading |
| LegacyMonitor.DailyUploadOncePerDate | kaco2pvo.py:355-375 | (corrected) after a successful summary none is due again on the same date, and one is due after 23:45 on any later date |
| LegacyMonitor.FirstSummaryComment | kaco2pvo.py:359-363 | (corrected) the first summary of a run is marked incomplete exactly when the run began at or after the sunrise hour |
| LegacyMonitor.ParseAll | kaco2pvo.py:451-452 | each record gets the parse outcome of `processReading` with the UTC time it meets |
| LegacyMonitor.RecordStep | kaco2pvo.py:379-414 | a record that does not parse changes nothing and uploads nothing |
| LegacyMonitor.RunParsed | kaco2pvo.py:451-457 | the records before the first failure are all readings and are all added; the run ends with that failure's error, or without error iff every record was added |
| LegacyMonitor.RunParsedStep | kaco2pvo.py:451-452 | one more record after an error-free run either raises its parse error or adds its reading |
| LegacyMonitor.RunStopsAtError | kaco2pvo.py:451-457 | once a record has failed, later records change nothing |
| LegacyMonitor.Monitor.constructor | kaco2pvo.py:149-168 | (corrected) the globals are those of Initial |
| LegacyMonitor.Monitor.AddReading | kaco2pvo.py:299-376 | (corrected) the globals and the two uploads are those of AddReadingStep |
| LegacyMonitor.Monitor.AccumulateReading | kaco2pvo.py:301-327 | (corrected) the globals become those of Accumulate |
| LegacyMonitor.Monitor.AddToWindow | kaco2pvo.py:309-313 | power, current and voltage join the window sums and the window count grows by one; nothing else changes |
| LegacyMonitor.Monitor.AddToDay | kaco2pvo.py:314-318 | the day's power sum, energy (power × 10/3600 h) and count grow; nothing else changes |
| LegacyMonitor.Monitor.TrackExtremes | kaco2pvo.py:321-327 | (corrected) the peak and its time move as TrackPeak, the temperature range as TrackRange; nothing else changes |
| LegacyMonitor.Monitor.PostStatus | kaco2pvo.py:328-349 | the globals and the status upload are those of StatusGate |
| LegacyMonitor.Monitor.PostDailySummary | kaco2pvo.py:355-375 | (corrected) the globals and the summary upload are those of DailyGate |
| LegacyMonitor.Monitor.RestartDay | kaco2pvo.py:364-371 | after a posted summary `lastOutput` is now and the day totals are fresh ones; the status window, `lastStatus` and the full-day flag are untouched |
| LegacyMonitor.Monitor.ProcessReading | kaco2pvo.py:379-414 | an error is reported iff the record does not parse, and the globals then stay as they were; otherwise the reading is added |
| LegacyMonitor.Monitor.ProcessRecords | kaco2pvo.py:448-457 | the records are processed in order until one raises, as RunParsed says |
| LegacyMonitor.MonthEndStopsSummaries | kaco2pvo.py:355 | as written, after a summary on the 31st of a month the end-of-day condition never holds again |
| LegacyMonitor.MonthEndCounterexample | kaco2pvo.py:355 | a summary on 31 January blocks the one due on 1 February |
| LegacyMonitor.EarlySummaryCounterexample | kaco2pvo.py:141-144 | with the cutoff fixed on the start date, a later date's summary falls due at 06:30 |
| LegacyMonitor.FullDayCounterexample | kaco2pvo.py:430-436 | as written a run started at 05:00 is flagged as not a full day |
| LegacyMonitor.PeakTimeCounterexample | kaco2pvo.py:321-323 | storing `int(gen)` lets 100.2 W displace a 100.5 W peak and its time |
| Tracking.TrackPeak | kaco2pvo/sources/PowerStats.py:70-72 | one peak update keeps the old peak or takes the observation, ends at least as large as both, and keeps the old peak on ties (strict comparison) |
| Tracking.PeakIsFirstMaximum | kaco2pvo/sources/PowerStats.py:71-73 | over a run of observations the peak is their maximum, or the start when none exceeds it, stamped with the first observation that attains it |
| Tracking.TrackRange | kaco2pvo.py:324-327 | after one temperature update the value lies in the range, the range only widens, and each bound is either kept or the new value |
| Tracking.RangeOfCovers | kaco2pvo/sources/PowerStats.py:106-109 | after a run of temperatures every one lies in the final range, which contains the starting one |
| CivilTime.AtClock | kaco2pvo.py:142-144 | `replace(hour, minute, second=0)` keeps the date and sets the clock to hour:minute:00 |
| Clock.SecondOfDay | kaco2pvo/sources/PowerStats.py:42-47 | the clock part of a time lies in [0, 86400) |
| Clock.DayStart | kaco2pvo/sources/PowerStats.py:42-47 | the year, month and day of a time with a zero clock: a whole day, at or before the time and less than a day before it |
| Clock.Minute | kaco2pvo/sources/Generator.py:192 | `.minute` lies in [0, 60) |
| Clock.FormatClock | kaco2pvo/sources/Generator.py:197 | `strftime("%H.%M.%S")` writes eight characters with the separators at positions 2 and 5 |
| Clock.ParseClock | kaco2pvo/sources/PowerStats.py:41 | `strptime` accepts only HH.MM.SS text, giving a clock in [0, 86400) |
| Clock.ClockRoundTrip | kaco2pvo/sources/Generator.py:197 | parsing the formatted clock of a time gives back that time's clock |
| PowerReadings.ClearedFields | kaco2pvo/sources/PowerReading.py:146-157 | `clear_reading` writes exactly the ten correctly spelled keys and not the misspelled line-current key |
| PowerReadings.StoreReadsBack | kaco2pvo/sources/PowerReading.py:67-105 | after storing a key its getter returns the value, and every other key reads as before |
| PowerReadings.FreshLineCurrentMissing | kaco2pvo/sources/PowerReading.py:95-155 | on a fresh reading the line-current getter raises KeyError, while every other key, including the correctly spelled line current, has its default |
| PowerReadings.PowerReading.constructor | kaco2pvo/sources/PowerReading.py:159-162 | a new reading holds exactly the `clear_reading` defaults |
| PowerReadings.PowerReading.GetStats | kaco2pvo/sources/PowerReading.py:54-56 | `get_stats` returns the reading object itself |
| PowerReadings.PowerReading.CreateReading | kaco2pvo/sources/PowerReading.py:58-61 | the dictionary becomes empty, and that dictionary is returned |
| PowerReadings.PowerReading.ClearReading | kaco2pvo/sources/PowerReading.py:146-157 | the defaults overwrite their keys and every other key stays |
| PowerReadings.PowerReading.SetPlaceholder | kaco2pvo/sources/PowerReading.py:67-69 | only the placeholder key changes, and its getter returns the value |
| PowerReadings.PowerReading.SetRunTimeDaily | kaco2pvo/sources/PowerReading.py:71-73 | only the run-time key changes, and its getter returns the value |
| PowerReadings.PowerReading.SetOperatingState | kaco2pvo/sources/PowerReading.py:75-77 | only the operating-state key changes, and its getter returns the value |
| PowerReadings.PowerReading.SetGeneratorVoltage | kaco2pvo/sources/PowerReading.py:79-81 | only the generator-voltage key changes, and its getter returns the value |
| PowerReadings.PowerReading.SetGeneratorCurrent | kaco2pvo/sources/PowerReading.py:83-85 | only the generator-current key changes, and its getter returns the value |
| PowerReadings.PowerReading.SetGeneratorPower | kaco2pvo/sources/PowerReading.py:87-89 | only the generator-power key changes, and its getter returns the value |
| PowerReadings.PowerReading.SetLineVoltage | kaco2pvo/sources/PowerReading.py:91-93 | only the line-voltage key changes, and its getter returns the value |
| PowerReadings.PowerReading.SetLineCurrentFeedIn | kaco2pvo/sources/PowerReading.py:95-97 | only the misspelled line-current key changes, and the getter, which reads the same key, returns the value |
| PowerReadings.PowerReading.SetLinePowerFeedIn | kaco2pvo/sources/PowerReading.py:99-101 | only the line-power key changes, and its getter returns the value |
| PowerReadings.PowerReading.SetGeneratorTemperature | kaco2pvo/sources/PowerReading.py:103-105 | only the temperature key changes, and its getter returns the value |
| PowerStatistics.WithSum | kaco2pvo/sources/PowerStats.py:126-144 | a `set_total_*` setter changes that sum only; other sums and all averages stay |
| PowerStatistics.AddTo | kaco2pvo/sources/PowerStats.py:75-76 | `+=` grows one sum by the amount and leaves the others and all averages |
| PowerStatistics.Averaged | kaco2pvo/sources/PowerStats.py:55-58 | an average becomes its sum over the count; sums and the other averages stay |
| PowerStatistics.PlaceholderClock | kaco2pvo/sources/PowerStats.py:40-41 | a placeholder that reads gives a clock within one day |
| PowerStatistics.AddAndAverage | kaco2pvo/sources/PowerStats.py:91-95 | one quantity joins both sums, both of its averages become sum over count, and everything else stays |
| PowerStatistics.EnergyDone | kaco2pvo/sources/PowerStats.py:37-58 | after the energy statements, the time of stat is the start date with the reading's clock, both energy sums grew by power × sample hours, and both energy averages are sum over count |
| PowerStatistics.CalculateSucceeds | kaco2pvo/sources/PowerStats.py:33-115 | a calculation completes iff every entry it reads is present and typed right and both counts are non-zero |
| PowerStatistics.CalculateAccumulates | kaco2pvo/sources/PowerStats.py:40-112 | a completed calculation adds the reading's power × sample hours, power, voltage, current and temperature to both scopes, stamps the time of stat, and keeps the sample period |
| PowerStatistics.CalculateAverages | kaco2pvo/sources/PowerStats.py:55-115 | after a completed calculation every average is its sum over that scope's count |
| PowerStatistics.MeasureAccumulates | kaco2pvo/sources/PowerStats.py:71-115 | the power-to-temperature statements complete, add to those four sums in both scopes, and leave the energy entries |
| PowerStatistics.MeasureAverages | kaco2pvo/sources/PowerStats.py:75-115 | the power-to-temperature statements leave each of those averages at sum over count |
| PowerStatistics.CalculateTracksExtremes | kaco2pvo/sources/PowerStats.py:71-109 | the peak and its time move as TrackPeak with the reading's power and clock, and the temperature extremes move as TrackRange |
| PowerStatistics.CalculateFailsPartway | kaco2pvo/sources/PowerStats.py:40-115 | a bad placeholder changes nothing; a bad power entry leaves only the time of stat; a zero total count raises after the energy was already added; a bad later entry raises after the power was counted |
| PowerStatistics.ClearedReadingRejected | kaco2pvo/sources/PowerStats.py:40-41 | a fresh reading, with placeholder 00.00.0000, raises before the dictionary changes |
| PowerStatistics.FirstReadingStats | kaco2pvo/sources/PowerStats.py:252-256 | the first reading after clearing, with counts of one, makes every sum and average that reading's value, and an in-bounds temperature both the minimum and the maximum |
| PowerStatistics.ClearTouchesOnlyTotals | kaco2pvo/sources/PowerStats.py:228-249 | clearing zeroes all whole-run sums, averages and the peak, and reseeds the extremes to -254 and 255; the sample scope and period stay |
| PowerStatistics.ResetTouchesOnlySample | kaco2pvo/sources/PowerStats.py:210-226 | resetting zeroes the sample period and every sample sum and average; the totals, peak and extremes stay |
| PowerStatistics.PowerStats.constructor | kaco2pvo/sources/PowerStats.py:252-256 | a new object holds the cleared and reset dictionary with both counts zero |
| PowerStatistics.PowerStats.CaclulateStats | kaco2pvo/sources/PowerStats.py:33-115 | the dictionary and the outcome are those of Calculate on the reading's entries; the counters are not written |
| PowerStatistics.PowerStats.EnergizeStats | kaco2pvo/sources/PowerStats.py:51-115 | the statements after the power is read end as Energize says |
| PowerStatistics.PowerStats.AccumulateEnergy | kaco2pvo/sources/PowerStats.py:51-58 | both energy sums grow first; then a zero total count raises, a zero sample count raises after the total average, and otherwise both averages are set |
| PowerStatistics.PowerStats.MeasureStats | kaco2pvo/sources/PowerStats.py:69-115 | the power, voltage, current and temperature statements end as Measure says |
| PowerStatistics.PowerStats.ResetSamplePeriod | kaco2pvo/sources/PowerStats.py:210-226 | the dictionary is reset and the sample count zeroed; the total count stays |
| PowerStatistics.PowerStats.ClearStats | kaco2pvo/sources/PowerStats.py:228-249 | the dictionary is cleared and the total count zeroed; the sample count stays |
| PowerStatistics.PowerStats.SetTotal | kaco2pvo/sources/PowerStats.py:126-144 | one whole-run sum takes the value and nothing else changes |
| PowerStatistics.PowerStats.SetTotalReadingCount | kaco2pvo/sources/PowerStats.py:186-188 | only the total count changes |
| PowerStatistics.PowerStats.SetSampleReadingCount | kaco2pvo/sources/PowerStats.py:194-196 | only the sample count changes |
| PowerStatistics.PowerStats.SetTimeSamplePeriod | kaco2pvo/sources/PowerStats.py:202-204 | only the sample period changes |
| Generators.FieldsRejoin | kaco2pvo/sources/Generator.py:157-159 | the space-delimited csv reader cuts a line into fields that hold no space and that, joined with single spaces, give back the line without its line ending |
| Generators.Stored | kaco2pvo/sources/Generator.py:160-166 | the row's tokens sit at keys 0, 1, 2, ...; keys past them keep the earlier rows' values; no other key appears |
| Generators.StoreStep | kaco2pvo/sources/Generator.py:162-166 | an empty token is skipped, and any other token is stored at the next free index |
| Generators.StoreTokens | kaco2pvo/sources/Generator.py:160-166 | the inner loop leaves `my_list` as Stored of the row's non-empty tokens |
| Generators.ReadingTime | kaco2pvo/sources/Generator.py:170-182 | a time of reading exists iff a file date is set and token 1 is a clock; it is then the file date plus the data start time's clock plus token 1 |
| Generators.FirstBadToken | kaco2pvo/sources/Generator.py:197-207 | the setters raise iff some token 2..9 is missing or, from 3 on, not a number; the error names the first such token |
| Generators.FilledReadingReads | kaco2pvo/sources/Generator.py:197-207 | the reading the setters build is one `caclulate_stats` accepts: its placeholder reads back as the reading's clock, and its numbers are the tokens' numbers |
| Generators.HeadEntries | kaco2pvo/sources/Generator.py:197-203 | the first six setters leave the clock text of the reading time under the placeholder key, the numbers of tokens 3 to 5 under voltage, current and power, and the cleared zero line current |
| Generators.CopyTotals | kaco2pvo/sources/Generator.py:216-220 | the snapshot gets every running sum and keeps zero averages |
| Generators.WindowCloses | kaco2pvo/sources/Generator.py:184-195 | (unfolds Window) the sample period is measured from the old first sample; the set closes iff the minute changes, and the reading then becomes the first sample with the sample count at 0 |
| Generators.RecordFacts | kaco2pvo/sources/Generator.py:208-225 | a recorded reading adds one to both counters, is stored after the earlier readings, adds one output entry, and adds a snapshot exactly when a set starts; the invariant is kept |
| Generators.RecordKeepsInv | kaco2pvo/sources/Generator.py:208-225 | recording a readable reading keeps the invariant |
| Generators.RecordSnapshot | kaco2pvo/sources/Generator.py:214-225 | (unfolds Record) the snapshot a new set takes is calculated from the running stats after the reading, with the new counters |
| Generators.RowSucceeds | kaco2pvo/sources/Generator.py:167-225 | (unfolds Row) a row with a time and good tokens records the reading the setters built, after the window step |
| Generators.RowTimeFails | kaco2pvo/sources/Generator.py:170-182 | (unfolds Row) a row without a time of reading raises before anything changes |
| Generators.RowSetterFails | kaco2pvo/sources/Generator.py:184-207 | (unfolds Row) a row whose setters raise has moved the window and recorded nothing |
| Generators.RowCounts | kaco2pvo/sources/Generator.py:160-225 | a row goes through iff its time forms and its tokens read; it then adds exactly one reading and one output, leaving the sample count at least 1; otherwise it adds nothing; the invariant 0 ≤ sample ≤ readings is kept |
| Generators.RowAdds | kaco2pvo/sources/Generator.py:197-213 | a passing row adds one reading and one output and leaves the earlier readings intact |
| Generators.RecordCalculates | kaco2pvo/sources/Generator.py:208-213 | recording never raises in `caclulate_stats`; the running time of stat is the file day plus the reading's clock, and every running sum grows by the reading |
| Generators.SnapshotCountsReadingTwice | kaco2pvo/sources/Generator.py:214-224 | each snapshot sum is the running sum plus the reading once more |
| Generators.ShortRowReusesTokens | kaco2pvo/sources/Generator.py:134-166 | a row of at most two tokens after a full row raises nothing and reads the earlier row's fields |
| Generators.LinesStopAtError | kaco2pvo/sources/Generator.py:157-160 | once a row has raised, the file's later lines change nothing |
| Generators.ImportLinesCounts | kaco2pvo/sources/Generator.py:157-213 | importing a file adds one reading and one output per kept line up to the first exception, all of them if none, keeps earlier readings as a prefix, and keeps the invariant |
| Generators.LineCounts | kaco2pvo/sources/Generator.py:157-213 | one more line after an error-free run adds at most one reading and exactly as many outputs as readings, exactly one when it is kept and passes, keeps earlier readings as a prefix, and keeps the invariant |
| Generators.ImportLinesStep | kaco2pvo/sources/Generator.py:157-160 | a file's rows are those of its earlier lines followed by the next line, which is skipped after an exception or when the filter drops it |
| Generators.FilesStopAtError | kaco2pvo/sources/Generator.py:143-146 | once a file has raised, later files change nothing |
| Generators.Generator.constructor | kaco2pvo/sources/Generator.py:276-278 | a new generator is the cleared initial state with no output and no data path |
| Generators.Generator.ClearGenerator | kaco2pvo/sources/Generator.py:239-260 | both counters are zeroed, the dates reset, the readings and snapshots emptied and the running stats cleared; the output list and the first sample time stay |
| Generators.Generator.SetFileDate | kaco2pvo/sources/Generator.py:112-114 | only the file date changes |
| Generators.Generator.SetDataStartTime | kaco2pvo/sources/Generator.py:84-86 | only the data start time changes |
| Generators.Generator.SetPathToData | kaco2pvo/sources/Generator.py:76-78 | only the data path changes |
| Generators.Generator.ImportReadings | kaco2pvo/sources/Generator.py:131-229 | without a data path it raises KeyError; with an empty path it does nothing; otherwise it imports the files in order as ImportFiles says |
| Generators.Generator.ReadFile | kaco2pvo/sources/Generator.py:146-160 | a file without a set or embedded date raises; otherwise its lines are imported |
| Generators.Generator.ReadLines | kaco2pvo/sources/Generator.py:157-160 | the kept lines are imported in order up to the first exception, as ImportLines says |
| Generators.Generator.ImportRow | kaco2pvo/sources/Generator.py:160-166 | one kept line stores its tokens and then runs its row, as RowStep says |
| Generators.Generator.ImportTokens | kaco2pvo/sources/Generator.py:167-182 | the rest of the row ends as Row says |
| Generators.Generator.ImportTimed | kaco2pvo/sources/Generator.py:184-225 | a timed row ends as Row says |
| Generators.Generator.RecordRow | kaco2pvo/sources/Generator.py:208-225 | recording keeps the generator valid and ends as Record says |
| Generators.Generator.MarkWindow | kaco2pvo/sources/Generator.py:184-195 | the window step is Window; the output list stays |
| Generators.Generator.FillReading | kaco2pvo/sources/Generator.py:197-207 | the setters raise FirstBadToken's error; if none, the reading is the filled one |
| Generators.Generator.FillHead | kaco2pvo/sources/Generator.py:197-203 | the first six setters raise the first bad token among 2 to 5; if none, those tokens read and the reading holds HeadFilled |
| Generators.Generator.FillTail | kaco2pvo/sources/Generator.py:204-207 | the last four setters raise the first bad token among 6 to 9; if none, the reading gains TailFilled's entries |
| Generators.Generator.AddReading | kaco2pvo/sources/Generator.py:208-214 | the state becomes Record's, and the running stats object is appended to the output |
| Generators.Generator.CountReading | kaco2pvo/sources/Generator.py:208-212 | both counters go up by one, the reading is appended to the stored readings and the running stats take the new counts; the output list is untouched |
| Generators.Generator.TakeSnapshot | kaco2pvo/sources/Generator.py:215-225 | exactly one snapshot is appended: OneStat over the running stats and counters |

## Left out

- Serial port, logging and clocks: the port set-up and read calls, every logger, and `datetime.now()` / `utcnow()` are not modelled. The received chunks, the local and UTC times and the start time are parameters.
- Decoding of the serial bytes (`decode('utf-8', "replace")`): chunks arrive as text.
- HTTP posting: `post`, `postPVstatus` and `postPVoutput` (kaco2pvo.py:229-296) are network I/O. Whether a post succeeds is a boolean parameter, and the model returns the upload's contents instead of sending them. As written, these functions build their parameters with `time.strftime` on a datetime and with `"Params:" + params` on a dict. Both would raise TypeError. The model does not follow that path.
- Generator file handling: the directory walk, opening and closing files, and the regex that finds the date in a file name are not modelled. Files arrive as `DataFile` values: the date in the name (if any) and the lines. The case of a single-file path is not modelled; there, iterating the normalised path string would fail.
- `Utilities` (imported by PowerStats.py and Generator.py) is not part of this model:
  - `num` is taken to be the legacy script's `num`;
  - `convert_timedelta_to_hours` is taken to be seconds / 3600.
- Floating point: every quantity is a `real`, so rounding is not modelled. `int()` on a float is modelled as truncation toward zero (`LegacyMonitor.Trunc`).
- Datetime range: refactored times are unbounded integers, so the OverflowError of a datetime outside years 1 to 9999 is not modelled.
- Numbers.ParseNum: accepts only optional sign, digits and at most one '.'. Python's `int()` and `float()` also accept surrounding whitespace, underscores between digits, exponents, "inf" / "nan", and decimal digits of other scripts (such as Arabic-Indic digits); the model rejects those.
- Clock.ParseClock: accepts two-digit hour, minute and second fields only. Python's `strptime` also accepts single-digit fields such as "6:05:03".
- Text.Words: whitespace is the Latin-1 subset of what `str.split()` and `str.isspace()` recognise.
- Generator class attributes: `_running_stat`, `_output`, `_myreadings`, `_mystats` and `_generator` are class attributes, so all Generator objects share them. The model gives each Generator its own.
- Generator configuration: the settings the core never reads are not modelled. These are `set_time_daily_upload`, `set_path_to_device`, `set_power_min`, `set_power_max`, `set_time_sample_period`, `set_time_sunrise`, their getters, `get_readings_daily` and `get_time_output_last`. Nor are the matching entries `clear_generator` writes.
- Generator `do_reading` and `get_is_ready_to_read`: not modelled, because they rely on an `_onestat` attribute that no code creates and on a TODO.
- PowerStats entries for consumed energy and power: `reset_sample_period` and `clear_stats` write them, but nothing reads them, so they are not modelled.
- PowerStats `create_stats`: modelled only inside the constructor. The getters are functions without contracts.
- The `print_*` methods and the logging string concatenations are diagnostics and are not modelled.
- Initial (LegacyMonitor.Initial): models the intended full-day flag, set when the run starts before 09:00; kaco2pvo.py:430-436 sets it the other way round, which `FullDayAsWritten` and `FullDayCounterexample` model.
- Accumulate (LegacyMonitor.Accumulate): keeps the full power as the day peak; kaco2pvo.py:322 stores `int(gen)`, which `TrackPeakAsWritten` and `PeakTimeCounterexample` model.
- DailyGate (LegacyMonitor.DailyGate): models the intended gate, due after 23:45 of the current date on a later calendar date; kaco2pvo.py:355 as written uses the start date's cutoff (kaco2pvo.py:141-144) and the day of the month, which `DailyDueAsWritten`, `MonthEndStopsSummaries`, `MonthEndCounterexample` and `EarlySummaryCounterexample` model.
- AddReadingStep (LegacyMonitor.AddReadingStep): composes the corrected Accumulate and DailyGate, so its summary falls due on `DailyDue`, not on the condition of kaco2pvo.py:355 (`DailyDueAsWritten`).
- DailyTotalsWithoutUpload (LegacyMonitor.DailyTotalsWithoutUpload): its no-summary premise is the corrected `DailyDue` and its peak is the corrected tracker; the as-written peak is `TrackPeakAsWritten`.
- DayPeakIsFirstMaximum (LegacyMonitor.DayPeakIsFirstMaximum): holds for the corrected tracker only; with `int(gen)` as written it fails (`PeakTimeCounterexample`).
- DailyUploadOncePerDate (LegacyMonitor.DailyUploadOncePerDate): the once-per-date rule of the corrected gate; as written no summary is due again after one on the 31st (`MonthEndStopsSummaries`).
- FirstSummaryComment (LegacyMonitor.FirstSummaryComment): the comment for the corrected full-day flag; as written a run started before 09:00 is marked incomplete (`FullDayCounterexample`).
- constructor (LegacyMonitor.Monitor.constructor): the globals of the corrected Initial; the as-written flag is `FullDayAsWritten`.
- AddReading (LegacyMonitor.Monitor.AddReading): ends as the corrected AddReadingStep; see the AddReadingStep line.
- AccumulateReading (LegacyMonitor.Monitor.AccumulateReading): ends as the corrected Accumulate, whose peak is not `int(gen)`.
- TrackExtremes (LegacyMonitor.Monitor.TrackExtremes): stores the full power as the peak, where kaco2pvo.py:322 stores `int(gen)` (`TrackPeakAsWritten`).
- PostDailySummary (LegacyMonitor.Monitor.PostDailySummary): ends as the corrected DailyGate; the as-written condition is `DailyDueAsWritten`.
- DayRangeCoversReadings (LegacyMonitor.DayRangeCoversReadings): its no-summary premise is the corrected `DailyDue`; as written a summary can post inside it (the input of `EarlySummaryCounterexample`), and kaco2pvo.py:369-370 then reset the range after the reading's temperature was folded in.
- get_placeholder (PowerReadings.PowerReading.GetPlaceholder): PowerReading.py defines no `get_placeholder`, so as written the call at PowerStats.py:40 raises AttributeError on every `caclulate_stats`, before anything is written, and `import_readings` raises at Generator.py:213 on the first row that reaches it. The model supplies the getter, which reads the `placeholder` key; `CalculateSucceeds`, `CalculateAccumulates`, `CaclulateStats`, `RecordCalculates`, `RowCounts` and `ImportLinesCounts` describe the program with that getter added.
- Microseconds: `CivilTime.DateTime` has whole seconds. `datetime.now()` carries microseconds while the 23:45 cutoff is built with `microsecond=0` (kaco2pvo.py:142-144), so a reading at 23:45:00.4 is past the cutoff in the code but not in `DailyDue` or `DailyDueAsWritten`.
- CSV quoting: `Generators.Fields` cuts a line at every space. The `csv.reader` of Generator.py:157-159 also honours `"` quoting, so `"a b"` is one field there and two tokens here.
- The legacy script's `powerReading` class (kaco2pvo.py:179-226) is the `LegacyParser.Reading` value. Field 0 of a record is only logged and is not kept.

## Findings

| source | as written | input that shows it | evidently intended | confidence | as-written member | corrected member |
|---|---|---|---|---|---|---|
| kaco2pvo.py:355 | `timeNow.day > lastOutput.day` compares days of the month (as-written predicate `LegacyMonitor.DailyDueAsWritten`; `LegacyMonitor.MonthEndStopsSummaries` shows that after a summary on the 31st none is ever due again) | last summary 2014-01-31 23:50, clock 2014-02-01 23:50: 1 > 31 is false, so no summary | one summary per calendar date after 23:45; proved in `LegacyMonitor.DailyUploadOncePerDate` | not executed; high | LegacyMonitor.MonthEndCounterexample | LegacyMonitor.DailyGate |
| kaco2pvo.py:141-144 | the 23:45 cutoff is computed once, on the start date, so on every later date `timeNow > PV_DAILY_UPLOAD_TIME` holds from midnight | started 2014-05-01 08:00, last summary 2014-05-01 23:50, clock 2014-05-02 06:30: summary due at 06:30 | due only after 23:45 of the current date; proved in `LegacyMonitor.DailyUploadOncePerDate` | not executed; high | LegacyMonitor.EarlySummaryCounterexample | LegacyMonitor.DailyGate |
| kaco2pvo.py:430-436 | a run started before the sunrise hour sets `fullDaysReadings = False`, and one started later sets True | started 2014-05-01 05:00: flagged as not a full day, so the first summary's comment says the readings are incomplete | full day exactly when the run began before 09:00; proved in `LegacyMonitor.FirstSummaryComment` | not executed; high | LegacyMonitor.FullDayCounterexample | LegacyMonitor.Initial |
| kaco2pvo.py:321-323 | the stored peak is `int(gen)`, so a later reading with a smaller fractional power can beat it (as-written update `LegacyMonitor.TrackPeakAsWritten`) | 100.5 W then 100.2 W: the stored 100 is beaten by 100.2, and the peak time moves to the smaller reading | peak time of the first reading that attains the maximum; proved in `Tracking.PeakIsFirstMaximum` and `LegacyMonitor.DayPeakIsFirstMaximum` | not executed; medium | LegacyMonitor.PeakTimeCounterexample | Tracking.TrackPeak |
