/**
 * `processReading` (kaco2pvo.py) up to the call of `addReading`: a record is split on
 * whitespace, fields 3 to 9 go through `num`, and generator power is clamped.
 */
module LegacyParser {
  import opened Common
  import opened Text
  import opened Numbers
  import opened CivilTime

  /** PVS_MIN_PVP: generated power below this many watts counts as none. */
  const MinPower: real := 7.5
  /** PVS_MAX_PVP: generated power above this many watts is cut down to it. */
  const MaxPower: real := 6000.0
  /** A record carries this many whitespace-separated fields. */
  const FieldCount: nat := 10

  /** The legacy `powerReading`: every field is set once, by the constructor. */
  datatype Reading = Reading(
    timeOfReading: DateTime,
    dailyRunTime: string,
    operatingState: string,
    generatorVoltage: Number,
    generatorCurrent: Number,
    generatorPower: Number,
    lineVoltage: Number,
    lineCurrentFeedIn: Number,
    powerFeedIn: Number,
    unitTemperature: Number)

  /** IndexError on a missing field, ValueError from `num` on a field that is not a number. */
  datatype ParseError = MalformedRecord(index: nat) | InvalidNumber(index: nat)

  /**
   * The clamp of lines 405-408. Since the lower bound is positive, the result lies in
   * [0, MaxPower] and is zero exactly when the input is below MinPower.
   */
  function Clamp(p: Number): (r: Number)
    ensures 0.0 <= Value(r) <= MaxPower
    ensures Value(r) == 0.0 <==> Value(p) < MinPower
    ensures MinPower <= Value(p) <= MaxPower ==> r == p
    ensures Value(p) > MaxPower ==> Value(r) == MaxPower
  {
    if Value(p) < MinPower then IntNum(0)
    else if Value(p) > MaxPower then FloatNum(MaxPower)
    else p
  }

  /** Field `j` is read without error: it exists and, from field 3 on, `num` accepts it. */
  predicate FieldReads(fields: seq<string>, j: nat)
  {
    j < |fields| && (j >= 3 ==> ParseNum(fields[j]).Some?)
  }

  /**
   * The exception `processReading` raises while reading fields `i` to 9 in order: IndexError
   * at the first missing field, ValueError at the first number `num` rejects.
   */
  function FirstError(fields: seq<string>, i: nat): (r: Option<ParseError>)
    requires i <= |fields|
    ensures r.None? <==> forall j :: i <= j < FieldCount ==> FieldReads(fields, j)
    ensures r.Some? && r.value.MalformedRecord? ==>
      var k := r.value.index;
      i <= k < FieldCount && k == |fields| && forall j :: i <= j < k ==> FieldReads(fields, j)
    ensures r.Some? && r.value.InvalidNumber? ==>
      var k := r.value.index;
      3 <= k < FieldCount && i <= k < |fields| && ParseNum(fields[k]).None?
      && forall j :: i <= j < k ==> FieldReads(fields, j)
    decreases FieldCount - i
  {
    if i >= FieldCount then None
    else if i >= |fields| then assert !FieldReads(fields, i); Some(MalformedRecord(i))
    else if i >= 3 && ParseNum(fields[i]).None? then assert !FieldReads(fields, i); Some(InvalidNumber(i))
    else FirstError(fields, i + 1)
  }

  /**
   * `processReading` before `addReading`, on the record's whitespace-separated fields: the
   * error of FirstError, else fields 3 to 9 through `num` and the power clamped. The time of
   * reading is the UTC clock value `utcNow`; field 0 is only logged.
   */
  function ParseFields(fs: seq<string>, utcNow: DateTime): Result<Reading, ParseError>
  {
    match FirstError(fs, 0)
    case Some(e) => Err(e)
    case None =>
      assert FieldReads(fs, 9);
      assert forall j :: 3 <= j < FieldCount ==> FieldReads(fs, j);
      Ok(Reading(utcNow, fs[1], fs[2], ParseNum(fs[3]).value, ParseNum(fs[4]).value,
                 Clamp(ParseNum(fs[5]).value), ParseNum(fs[6]).value, ParseNum(fs[7]).value,
                 ParseNum(fs[8]).value, ParseNum(fs[9]).value))
  }

  /**
   * A record parses exactly when it has ten fields and fields 3 to 9 are numbers; the reading
   * then carries fields 1 and 2 as text, the numbers of fields 3 to 9 with the power clamped,
   * and the UTC time. Otherwise the error is the first one met reading fields in order.
   */
  lemma ParseFieldsOutcome(fs: seq<string>, utcNow: DateTime)
    ensures var r := ParseFields(fs, utcNow);
      r.Ok? <==> forall j :: 0 <= j < FieldCount ==> FieldReads(fs, j)
    ensures var r := ParseFields(fs, utcNow);
      r.Ok? ==>
      && |fs| >= FieldCount
      && r.value.timeOfReading == utcNow
      && r.value.dailyRunTime == fs[1] && r.value.operatingState == fs[2]
      && Some(r.value.generatorVoltage) == ParseNum(fs[3])
      && Some(r.value.generatorCurrent) == ParseNum(fs[4])
      && ParseNum(fs[5]).Some? && r.value.generatorPower == Clamp(ParseNum(fs[5]).value)
      && Some(r.value.lineVoltage) == ParseNum(fs[6])
      && Some(r.value.lineCurrentFeedIn) == ParseNum(fs[7])
      && Some(r.value.powerFeedIn) == ParseNum(fs[8])
      && Some(r.value.unitTemperature) == ParseNum(fs[9])
    ensures var r := ParseFields(fs, utcNow);
      r.Err? ==> Some(r.error) == FirstError(fs, 0)
  {
    if FirstError(fs, 0).None? {
      assert FieldReads(fs, 9);
      assert forall j :: 3 <= j < FieldCount ==> FieldReads(fs, j);
    }
  }

  /** `processReading`'s parse of one record: `record.split()`, then ParseFields. */
  function ParseRecord(record: string, utcNow: DateTime): Result<Reading, ParseError>
  {
    ParseFields(Words(record), utcNow)
  }

  /**
   * Ten words written out with single spaces, fields 3 to 9 numbers, parse back to a reading
   * holding words 1 and 2 as text and the numbers of words 3 to 9, with the power clamped.
   */
  lemma ParseWrittenRecord(ws: seq<string>, utcNow: DateTime)
    requires |ws| == FieldCount
    requires forall i :: 0 <= i < |ws| ==> IsWord(ws[i])
    requires forall i :: 3 <= i < |ws| ==> ParseNum(ws[i]).Some?
    ensures var r := ParseRecord(Join(ws, ' '), utcNow);
      && r.Ok?
      && r.value.timeOfReading == utcNow
      && r.value.dailyRunTime == ws[1] && r.value.operatingState == ws[2]
      && Some(r.value.generatorVoltage) == ParseNum(ws[3])
      && Some(r.value.generatorCurrent) == ParseNum(ws[4])
      && r.value.generatorPower == Clamp(ParseNum(ws[5]).value)
      && Some(r.value.lineVoltage) == ParseNum(ws[6])
      && Some(r.value.lineCurrentFeedIn) == ParseNum(ws[7])
      && Some(r.value.powerFeedIn) == ParseNum(ws[8])
      && Some(r.value.unitTemperature) == ParseNum(ws[9])
  {
    WordsOfJoin(ws);
    ParseFieldsOutcome(ws, utcNow);
  }
}
