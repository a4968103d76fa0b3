/**
 * The two running extrema both generations keep: the peak generated power with the time it was
 * seen (replaced only by a strictly larger value) and the minimum and maximum temperature
 * (each replaced only by a strictly smaller or larger value).
 */
module Tracking {

  /** A value with the time it was observed. */
  datatype Stamped<T> = Stamped(value: real, at: T)

  /** One peak update: the observation replaces the peak only when it is strictly larger. */
  function TrackPeak<T>(peak: Stamped<T>, x: Stamped<T>): (r: Stamped<T>)
    ensures r == peak || r == x
    ensures r.value >= peak.value && r.value >= x.value
    ensures x.value <= peak.value ==> r == peak
  {
    if peak.value < x.value then x else peak
  }

  /** The peak after observing `xs` in order, starting from `peak`. */
  function PeakOf<T>(peak: Stamped<T>, xs: seq<Stamped<T>>): Stamped<T>
    decreases |xs|
  {
    if xs == [] then peak else PeakOf(TrackPeak(peak, xs[0]), xs[1..])
  }

  /**
   * After a run of observations the peak is their maximum (or the starting peak when none
   * exceeds it), and its time is that of the FIRST observation attaining the maximum.
   */
  lemma {:induction false} PeakIsFirstMaximum<T>(peak: Stamped<T>, xs: seq<Stamped<T>>)
    ensures var r := PeakOf(peak, xs);
      && r.value >= peak.value
      && (forall i :: 0 <= i < |xs| ==> xs[i].value <= r.value)
      && ((forall i :: 0 <= i < |xs| ==> xs[i].value <= peak.value) ==> r == peak)
      && (r == peak ||
          exists i :: 0 <= i < |xs| && r == xs[i] && peak.value < r.value
                      && forall j :: 0 <= j < i ==> xs[j].value < r.value)
    decreases |xs|
  {
    if xs != [] {
      var p1 := TrackPeak(peak, xs[0]);
      var tail := xs[1..];
      PeakIsFirstMaximum(p1, tail);
      var r := PeakOf(p1, tail);
      assert r == PeakOf(peak, xs);
      forall i | 0 <= i < |xs| ensures xs[i].value <= r.value {
        if i > 0 { assert xs[i] == tail[i - 1]; }
      }
      if forall i :: 0 <= i < |xs| ==> xs[i].value <= peak.value {
        assert p1 == peak;
        assert forall i :: 0 <= i < |tail| ==> tail[i].value <= p1.value by {
          forall i | 0 <= i < |tail| ensures tail[i].value <= p1.value {
            assert tail[i] == xs[i + 1];
          }
        }
      }
      if r == p1 {
        if p1 != peak {
          assert r == xs[0] && peak.value < r.value;
        }
      } else {
        var i' :| 0 <= i' < |tail| && r == tail[i'] && p1.value < r.value
                  && forall j :: 0 <= j < i' ==> tail[j].value < r.value;
        var i := i' + 1;
        assert r == xs[i];
        forall j | 0 <= j < i ensures xs[j].value < r.value {
          if j > 0 { assert xs[j] == tail[j - 1]; }
        }
      }
    }
  }

  /** The lowest and highest value seen. */
  datatype Range = Range(min: real, max: real)

  /** One temperature update: max moves up only on a strictly higher value, min down on a lower one. */
  function TrackRange(r: Range, t: real): (r': Range)
    ensures r'.min <= t <= r'.max
    ensures r'.min <= r.min && r'.max >= r.max
    ensures r'.min == r.min || r'.min == t
    ensures r'.max == r.max || r'.max == t
  {
    Range(if r.min > t then t else r.min, if r.max < t then t else r.max)
  }

  /** The range after observing `ts` in order. */
  function RangeOf(r: Range, ts: seq<real>): Range
    decreases |ts|
  {
    if ts == [] then r else RangeOf(TrackRange(r, ts[0]), ts[1..])
  }

  /** Every observed value lies within the final range, which only ever widens. */
  lemma {:induction false} RangeOfCovers(r: Range, ts: seq<real>)
    ensures var r' := RangeOf(r, ts);
      && r'.min <= r.min && r'.max >= r.max
      && forall i :: 0 <= i < |ts| ==> r'.min <= ts[i] <= r'.max
    decreases |ts|
  {
    if ts != [] {
      var r1 := TrackRange(r, ts[0]);
      RangeOfCovers(r1, ts[1..]);
      forall i | 0 <= i < |ts| ensures RangeOf(r, ts).min <= ts[i] <= RangeOf(r, ts).max {
        if i > 0 { assert ts[i] == ts[1..][i - 1]; }
      }
    }
  }
}
