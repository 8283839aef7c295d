/** The naive 7-day forecast: one point per day from tomorrow on, each the
    current prediction plus a fixed 0.2 per day of distance. Days are whole
    day offsets on the same axis as `today`; values are exact reals. */
module Forecasting {
  import Severity

  /** Number of forecast days. */
  const Horizon: nat := 7

  /** Daily increment of the forecast value (exactly 1/5). */
  const Step: real := 0.2

  /** One forecast point: a calendar day and its predicted AQI. */
  datatype Point = Point(day: int, value: real)

  /** The forecast table: `Horizon` points starting the day after `today`,
      each one day and one `Step` beyond the previous. */
  function Forecast(today: int, prediction: real): (fs: seq<Point>)
    ensures |fs| == Horizon
    ensures fs[0] == Point(today + 1, prediction + Step)
    ensures forall k :: 0 < k < Horizon ==> fs[k].day == fs[k - 1].day + 1
    ensures forall k :: 0 < k < Horizon ==> fs[k].value == fs[k - 1].value + Step
  {
    seq(Horizon, k requires 0 <= k < Horizon => Point(today + k + 1, prediction + (k + 1) as real * Step))
  }

  /** The dashboard's loop: day offsets 1 to 7, appended to two parallel
      lists of dates and values. It builds exactly the forecast table. */
  method ForecastLoop(today: int, prediction: real) returns (days: seq<int>, values: seq<real>)
    ensures |days| == Horizon && |values| == Horizon
    ensures forall k :: 0 <= k < Horizon ==> Forecast(today, prediction)[k] == Point(days[k], values[k])
  {
    days := [];
    values := [];
    for i := 1 to Horizon + 1
      invariant |days| == i - 1 && |values| == i - 1
      invariant forall k :: 0 <= k < i - 1 ==> days[k] == today + k + 1
      invariant forall k :: 0 <= k < i - 1 ==> values[k] == prediction + (k + 1) as real * Step
    {
      days := days + [today + i];
      values := values + [prediction + i as real * Step];
    }
  }

  /** Forecast days strictly increase, the first being tomorrow and the last
      a week from today. */
  lemma DaysIncrease(today: int, prediction: real, i: int, j: int)
    requires 0 <= i < j < Horizon
    ensures Forecast(today, prediction)[i].day < Forecast(today, prediction)[j].day
    ensures Forecast(today, prediction)[0].day == today + 1
    ensures Forecast(today, prediction)[Horizon - 1].day == today + 7
  {
  }

  /** The forecast values are P + 0.2, P + 0.4, ..., P + 1.4 in day order. */
  lemma ForecastValues(today: int, prediction: real)
    ensures var fs := Forecast(today, prediction);
      [fs[0].value, fs[1].value, fs[2].value, fs[3].value, fs[4].value, fs[5].value, fs[6].value]
      == [prediction + 0.2, prediction + 0.4, prediction + 0.6, prediction + 0.8,
          prediction + 1.0, prediction + 1.2, prediction + 1.4]
  {
  }

  /** Forecast values strictly increase and stay within (P, P + 1.4]. */
  lemma ValuesIncrease(today: int, prediction: real, i: int, j: int)
    requires 0 <= i < j < Horizon
    ensures prediction < Forecast(today, prediction)[i].value < Forecast(today, prediction)[j].value <= prediction + 1.4
  {
  }

  /** The forecast never announces an improvement in air quality: the band
      of a later day is at or above the band of an earlier one. */
  lemma BandsNonDecreasing(today: int, prediction: real, i: int, j: int)
    requires 0 <= i <= j < Horizon
    ensures Severity.Rank(Severity.Classify(Forecast(today, prediction)[i].value))
         <= Severity.Rank(Severity.Classify(Forecast(today, prediction)[j].value))
  {
    var fs := Forecast(today, prediction);
    if i < j {
      ValuesIncrease(today, prediction, i, j);
    }
    Severity.Monotone(fs[i].value, fs[j].value);
  }
}
