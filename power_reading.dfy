/**
 * `PowerReading` (kaco2pvo/sources/PowerReading.py): a reading kept as a dictionary from
 * field names to values, written by setters and read by getters. A getter on a key that is
 * not there raises KeyError, modelled as None.
 */
module PowerReadings {
  import opened Common
  import opened Numbers
  import opened Clock

  /**
   * The dictionary keys. `LineCurrrentFeedIn` is the misspelled key the line-current setter
   * and getter use; `LineCurrentFeedIn` is the one `clear_reading` writes.
   */
  datatype Key =
    | Placeholder | RunTimeDaily | OperatingState
    | GeneratorVoltage | GeneratorCurrent | GeneratorPower
    | LineVoltage | LineCurrentFeedIn | LineCurrrentFeedIn | LinePowerFeedIn
    | GeneratorTemperature

  /** The values the readings hold: text, a number from `num`, or a datetime (seconds since 1900). */
  datatype Field = Text(s: string) | Num(n: Number) | Time(t: int)

  type ReadingDict = map<Key, Field>

  /** `d[k]`, None for KeyError. */
  function Lookup(d: ReadingDict, k: Key): Option<Field>
  {
    if k in d then Some(d[k]) else None
  }

  /** The entries `clear_reading` writes. */
  function ClearedFields(): (d: ReadingDict)
    ensures d.Keys == {Placeholder, RunTimeDaily, OperatingState, GeneratorVoltage, GeneratorCurrent,
                       GeneratorPower, LineVoltage, LineCurrentFeedIn, LinePowerFeedIn, GeneratorTemperature}
    ensures LineCurrrentFeedIn !in d
  {
    map[Placeholder := Text("00.00.0000"),
        RunTimeDaily := Time(MinTime),
        OperatingState := Num(IntNum(0)),
        GeneratorVoltage := Num(FloatNum(0.0)),
        GeneratorCurrent := Num(FloatNum(0.0)),
        GeneratorPower := Num(IntNum(0)),
        LineVoltage := Num(FloatNum(0.0)),
        LineCurrentFeedIn := Num(FloatNum(0.0)),
        LinePowerFeedIn := Num(IntNum(0)),
        GeneratorTemperature := Num(IntNum(0))]
  }

  /** Storing a key changes what that key reads and nothing else. */
  lemma StoreReadsBack(d: ReadingDict, k: Key, v: Field, other: Key)
    ensures Lookup(d[k := v], k) == Some(v)
    ensures other != k ==> Lookup(d[k := v], other) == Lookup(d, other)
  {
  }

  /**
   * On a fresh reading the line-current getter fails, because it reads the misspelled key that
   * `clear_reading` never writes, while every other getter finds its default.
   */
  lemma FreshLineCurrentMissing()
    ensures Lookup(ClearedFields(), LineCurrrentFeedIn).None?
    ensures Lookup(ClearedFields(), LineCurrentFeedIn) == Some(Num(FloatNum(0.0)))
    ensures forall k :: k != LineCurrrentFeedIn ==> Lookup(ClearedFields(), k).Some?
  {
  }

  class PowerReading {
    /** `_reading`. */
    var reading: ReadingDict

    /** `__init__`: `create_reading` then `clear_reading`. */
    constructor()
      ensures reading == ClearedFields()
    {
      reading := map[];
      new;
      ClearReading();
    }

    /** `get_stats` returns the reading object itself. */
    method GetStats() returns (r: PowerReading)
      ensures r == this
    {
      r := this;
    }

    /** `create_reading`: the dictionary is replaced by an empty one. */
    method CreateReading() returns (d: ReadingDict)
      modifies this
      ensures reading == map[] && d == reading
    {
      reading := map[];
      d := reading;
    }

    /** `clear_reading`: the default entries overwrite what was there; other keys stay. */
    method ClearReading()
      modifies this
      ensures reading == old(reading) + ClearedFields()
    {
      reading := reading + ClearedFields();
    }

    method SetPlaceholder(v: Field)
      modifies this
      ensures reading == old(reading)[Placeholder := v]
      ensures GetPlaceholder() == Some(v)
    {
      reading := reading[Placeholder := v];
    }

    method SetRunTimeDaily(v: Field)
      modifies this
      ensures reading == old(reading)[RunTimeDaily := v]
      ensures GetRunTimeDaily() == Some(v)
    {
      reading := reading[RunTimeDaily := v];
    }

    method SetOperatingState(v: Field)
      modifies this
      ensures reading == old(reading)[OperatingState := v]
      ensures GetOperatingState() == Some(v)
    {
      reading := reading[OperatingState := v];
    }

    method SetGeneratorVoltage(v: Field)
      modifies this
      ensures reading == old(reading)[GeneratorVoltage := v]
      ensures GetGeneratorVoltage() == Some(v)
    {
      reading := reading[GeneratorVoltage := v];
    }

    method SetGeneratorCurrent(v: Field)
      modifies this
      ensures reading == old(reading)[GeneratorCurrent := v]
      ensures GetGeneratorCurrent() == Some(v)
    {
      reading := reading[GeneratorCurrent := v];
    }

    method SetGeneratorPower(v: Field)
      modifies this
      ensures reading == old(reading)[GeneratorPower := v]
      ensures GetGeneratorPower() == Some(v)
    {
      reading := reading[GeneratorPower := v];
    }

    method SetLineVoltage(v: Field)
      modifies this
      ensures reading == old(reading)[LineVoltage := v]
      ensures GetLineVoltage() == Some(v)
    {
      reading := reading[LineVoltage := v];
    }

    /** Writes the misspelled key, the same one the getter reads. */
    method SetLineCurrentFeedIn(v: Field)
      modifies this
      ensures reading == old(reading)[LineCurrrentFeedIn := v]
      ensures GetLineCurrentFeedIn() == Some(v)
    {
      reading := reading[LineCurrrentFeedIn := v];
    }

    method SetLinePowerFeedIn(v: Field)
      modifies this
      ensures reading == old(reading)[LinePowerFeedIn := v]
      ensures GetLinePowerFeedIn() == Some(v)
    {
      reading := reading[LinePowerFeedIn := v];
    }

    method SetGeneratorTemperature(v: Field)
      modifies this
      ensures reading == old(reading)[GeneratorTemperature := v]
      ensures GetGeneratorTemperature() == Some(v)
    {
      reading := reading[GeneratorTemperature := v];
    }

    /**
     * The `placeholder` entry. PowerReading.py defines no getter for it, but `caclulate_stats`
     * calls `get_placeholder`; this is the getter that call needs.
     */
    function GetPlaceholder(): Option<Field>
      reads this
    {
      Lookup(reading, Placeholder)
    }

    function GetRunTimeDaily(): Option<Field>
      reads this
    {
      Lookup(reading, RunTimeDaily)
    }

    function GetOperatingState(): Option<Field>
      reads this
    {
      Lookup(reading, OperatingState)
    }

    function GetGeneratorVoltage(): Option<Field>
      reads this
    {
      Lookup(reading, GeneratorVoltage)
    }

    function GetGeneratorCurrent(): Option<Field>
      reads this
    {
      Lookup(reading, GeneratorCurrent)
    }

    function GetGeneratorPower(): Option<Field>
      reads this
    {
      Lookup(reading, GeneratorPower)
    }

    function GetLineVoltage(): Option<Field>
      reads this
    {
      Lookup(reading, LineVoltage)
    }

    /** Reads the misspelled key. */
    function GetLineCurrentFeedIn(): Option<Field>
      reads this
    {
      Lookup(reading, LineCurrrentFeedIn)
    }

    function GetLinePowerFeedIn(): Option<Field>
      reads this
    {
      Lookup(reading, LinePowerFeedIn)
    }

    function GetGeneratorTemperature(): Option<Field>
      reads this
    {
      Lookup(reading, GeneratorTemperature)
    }
  }
}
