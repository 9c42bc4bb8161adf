/**
 * The weather admission rule of the scheduler: a constraint built for one
 * scheduling window that answers, with a single boolean, whether the weather
 * admits observing in it.
 *
 * Dates are integer day ordinals and times of day are minutes after midnight.
 * The clock ("today") and the weather service's answers (the current report and
 * the forecast) are parameters.
 */
module Weather {
  import opened Wrappers

  /** Days ahead beyond which no forecast is consulted. */
  const ForecastHorizonDays := 5

  /** The site name the current-weather report is expected to carry. */
  const SiteLocation := "Volcano"

  /** A '%Y-%m-%d %H:%M' timestamp after parsing: a day ordinal and the minute of that day. */
  datatype Timestamp = Timestamp(date: int, minuteOfDay: int)

  /** The current-weather report: its location, condition name and cloud coverage in percent. */
  datatype WeatherReport = WeatherReport(location: string, condition: string, cloudCoverage: int)

  /** One hourly sample of a forecast day: its time of day and its cloud coverage in percent. */
  datatype Interval = Interval(time: int, cloudCoverage: int)

  /** The exceptions the forecast branch can raise. */
  datatype WeatherError = IndexError | ZeroDivisionError

  /** The three arms of the if / elif / else of the evaluation. */
  datatype Branch = CurrentWeather | Forecast | Unconditional

  /**
   * Python's `b & n` for a bool b and an int n: True acts as 1, so the result
   * is the lowest bit of n in two's complement, which for negative n too is
   * Dafny's (Euclidean) n % 2.
   */
  function BoolAndInt(b: bool, n: int): (r: int)
    ensures 0 <= r <= 1
    ensures b ==> (n - r) % 2 == 0
    ensures !b ==> r == 0
  {
    if b then n % 2 else 0
  }

  /**
   * The branch the evaluation takes. Its first test is read as Python parses
   * `start_today & days == 0`, namely `(start_today & days) == 0`.
   */
  function Dispatch(startToday: bool, days: int): (b: Branch)
    ensures b == CurrentWeather <==> !startToday || days % 2 == 0
    ensures b == Unconditional <==> startToday && days % 2 != 0
    ensures b != Forecast
  {
    if BoolAndInt(startToday, days) == 0 then CurrentWeather
    else if days == 0 then Forecast
    else Unconditional
  }

  /** The classification the branch comments describe: same single day, future single day, several days. */
  function IntendedDispatch(startToday: bool, days: int): (b: Branch)
    ensures b == CurrentWeather <==> startToday && days == 0
    ensures b == Forecast <==> !startToday && days == 0
    ensures b == Unconditional <==> days != 0
  {
    if startToday && days == 0 then CurrentWeather
    else if days == 0 then Forecast
    else Unconditional
  }

  /** Windows on which the literal test and the intended one part ways. */
  lemma DispatchMisroutes()
    ensures Dispatch(false, 0) == CurrentWeather && IntendedDispatch(false, 0) == Forecast
    ensures Dispatch(false, 2) == CurrentWeather && IntendedDispatch(false, 2) == Unconditional
  {
  }

  /** The decision table on the current weather report. The location is not consulted. */
  function CurrentWeatherAdmits(report: WeatherReport, cloudThreshold: int, rainThreshold: int): (ok: bool)
    ensures report.condition == "Clear" ==> ok
    ensures report.condition == "Clouds" ==> (ok <==> report.cloudCoverage <= cloudThreshold)
    ensures report.condition == "Rain" ==> (ok <==> report.cloudCoverage <= rainThreshold)
    ensures report.condition != "Clear" && report.condition != "Clouds" && report.condition != "Rain" ==> !ok
  {
    if report.condition == "Clear" then true
    else if report.condition == "Clouds" then report.cloudCoverage <= cloudThreshold
    else if report.condition == "Rain" then report.cloudCoverage <= rainThreshold
    else false
  }

  /** A report from another site is judged exactly as one from the expected site. */
  lemma CurrentWeatherIgnoresLocation(report: WeatherReport, location: string, cloudThreshold: int, rainThreshold: int)
    ensures CurrentWeatherAdmits(report.(location := location), cloudThreshold, rainThreshold)
         == CurrentWeatherAdmits(report.(location := SiteLocation), cloudThreshold, rainThreshold)
  {
  }

  /** Raising either threshold never turns an admission into a refusal. */
  lemma CurrentWeatherMonotone(report: WeatherReport, cloudThreshold: int, rainThreshold: int,
                               cloudThreshold': int, rainThreshold': int)
    requires cloudThreshold <= cloudThreshold' && rainThreshold <= rainThreshold'
    requires CurrentWeatherAdmits(report, cloudThreshold, rainThreshold)
    ensures CurrentWeatherAdmits(report, cloudThreshold', rainThreshold')
  {
  }

  /** Sum of the cloud coverage of the samples taken at or before endTime. */
  function CoverageUpTo(day: seq<Interval>, endTime: int): (sum: int)
    ensures (forall i :: 0 <= i < |day| ==> day[i].cloudCoverage >= 0) ==> sum >= 0
    ensures (forall i :: 0 <= i < |day| ==> day[i].time > endTime) ==> sum == 0
  {
    if day == [] then 0
    else
      var last := day[|day| - 1];
      CoverageUpTo(day[..|day| - 1], endTime) + (if last.time <= endTime then last.cloudCoverage else 0)
  }

  /** A later end time takes in more samples, so (coverage being non-negative) a larger sum. */
  lemma {:induction false} CoverageUpToMonotone(day: seq<Interval>, endTime: int, endTime': int)
    requires endTime <= endTime'
    requires forall i :: 0 <= i < |day| ==> day[i].cloudCoverage >= 0
    ensures CoverageUpTo(day, endTime) <= CoverageUpTo(day, endTime')
  {
    if day != [] {
      CoverageUpToMonotone(day[..|day| - 1], endTime, endTime');
    }
  }

  /** For a positive count, comparing a mean with a threshold is comparing the sum with threshold times count. */
  lemma MeanBelowIff(sum: int, count: int, threshold: int)
    requires count > 0
    ensures (sum as real) / (count as real) < threshold as real <==> sum < threshold * count
  {
    var s, n, t := sum as real, count as real, threshold as real;
    assert (s / n) * n == s;
    assert (threshold * count) as real == t * n;
    if s / n < t {
      assert (s / n) * n < t * n;
    }
    if s < t * n {
      assert s / n < (t * n) / n;
    }
  }

  /**
   * The verdict on one forecast day: its summed coverage up to endTime divided
   * by the number of all its samples, compared with the threshold. An empty day
   * is a division by zero.
   */
  function ForecastDayAdmits(day: seq<Interval>, endTime: int, cloudAverageThreshold: int): (r: Result<bool, WeatherError>)
    ensures r.Failure? <==> day == []
    ensures r.Failure? ==> r.error == ZeroDivisionError
    ensures r.Success? ==>
      (r.value <==> (CoverageUpTo(day, endTime) as real) / (|day| as real) < cloudAverageThreshold as real)
  {
    if |day| == 0 then Failure(ZeroDivisionError)
    else
      MeanBelowIff(CoverageUpTo(day, endTime), |day|, cloudAverageThreshold);
      Success(CoverageUpTo(day, endTime) < cloudAverageThreshold * |day|)
  }

  /**
   * The denominator is the whole day: a sample after endTime adds nothing to the
   * sum but one to the count, so (for a non-negative threshold) it can only turn
   * a refusal into an admission, never the reverse.
   */
  lemma LateSampleOnlyDilutes(day: seq<Interval>, late: Interval, endTime: int, cloudAverageThreshold: int)
    requires late.time > endTime && cloudAverageThreshold >= 0
    requires ForecastDayAdmits(day, endTime, cloudAverageThreshold) == Success(true)
    ensures ForecastDayAdmits(day + [late], endTime, cloudAverageThreshold) == Success(true)
  {
    assert (day + [late])[..|day|] == day;
  }

  /** The worked example: samples of 20% at 10:00 and 40% at 12:00, end time 12:00, mean 30%. */
  lemma ForecastDayExample()
    ensures ForecastDayAdmits([Interval(600, 20), Interval(720, 40)], 720, 25) == Success(false)
    ensures ForecastDayAdmits([Interval(600, 20), Interval(720, 40)], 720, 35) == Success(true)
  {
    var day := [Interval(600, 20), Interval(720, 40)];
    assert day[..1] == [Interval(600, 20)];
    assert CoverageUpTo(day, 720) == 60;
  }

  /** Python's `s[i]`, where a negative i counts from the end and anything else out of range raises. */
  function PythonIndex<T>(s: seq<T>, i: int): (r: Option<T>)
    ensures r.Some? <==> -|s| <= i < |s|
    ensures 0 <= i < |s| ==> r == Some(s[i])
    ensures -|s| <= i < 0 ==> r == Some(s[|s| + i])
  {
    if 0 <= i < |s| then Some(s[i])
    else if -|s| <= i < 0 then Some(s[|s| + i])
    else None
  }

  /**
   * The forecast branch: beyond the horizon the window is admitted without
   * looking at any forecast; otherwise the day `horizon` days ahead is judged.
   */
  function ForecastAdmits(horizon: int, forecast: seq<seq<Interval>>, endTime: int, cloudAverageThreshold: int)
    : (r: Result<bool, WeatherError>)
    ensures horizon > ForecastHorizonDays ==> r == Success(true)
    ensures horizon <= ForecastHorizonDays && 0 <= horizon < |forecast| ==>
      r == ForecastDayAdmits(forecast[horizon], endTime, cloudAverageThreshold)
    ensures horizon <= ForecastHorizonDays && -|forecast| <= horizon < 0 ==>
      r == ForecastDayAdmits(forecast[|forecast| + horizon], endTime, cloudAverageThreshold)
    ensures horizon <= ForecastHorizonDays && !(-|forecast| <= horizon < |forecast|) ==> r == Failure(IndexError)
  {
    if horizon > ForecastHorizonDays then Success(true)
    else
      match PythonIndex(forecast, horizon)
      case None => Failure(IndexError)
      case Some(day) => ForecastDayAdmits(day, endTime, cloudAverageThreshold)
  }

  /** What one arm of the evaluation returns. */
  function Verdict(branch: Branch, report: WeatherReport, forecast: seq<seq<Interval>>, horizon: int,
                   endTime: int, cloudThreshold: int, cloudAverageThreshold: int, rainThreshold: int)
    : Result<bool, WeatherError>
  {
    match branch
    case CurrentWeather => Success(CurrentWeatherAdmits(report, cloudThreshold, rainThreshold))
    case Forecast => ForecastAdmits(horizon, forecast, endTime, cloudAverageThreshold)
    case Unconditional => Success(true)
  }

  /** The accumulation loop of the forecast branch. */
  method SumCoverageUpTo(day: seq<Interval>, endTime: int) returns (ccSum: int)
    ensures ccSum == CoverageUpTo(day, endTime)
  {
    ccSum := 0;
    for i := 0 to |day|
      invariant ccSum == CoverageUpTo(day[..i], endTime)
    {
      assert day[..i + 1][..i] == day[..i];
      if day[i].time <= endTime {
        ccSum := ccSum + day[i].cloudCoverage;
      }
    }
    assert day[..|day|] == day;
  }

  /** The forecast branch as code: horizon cut-off, choice of the day, the sum loop, the division. */
  method EvaluateForecast(horizon: int, forecast: seq<seq<Interval>>, endTime: int, cloudAverageThreshold: int)
    returns (r: Result<bool, WeatherError>)
    ensures r == ForecastAdmits(horizon, forecast, endTime, cloudAverageThreshold)
  {
    if horizon > ForecastHorizonDays {
      return Success(true);
    }
    var schedDay := PythonIndex(forecast, horizon);
    if schedDay.None? {
      return Failure(IndexError);
    }
    var ccSum := SumCoverageUpTo(schedDay.value, endTime);
    if |schedDay.value| == 0 {
      return Failure(ZeroDivisionError);
    }
    r := Success(ccSum < cloudAverageThreshold * |schedDay.value|);
  }

  /** A weather constraint for one scheduling window, with its thresholds fixed at construction. */
  class WeatherConstraint {
    const days: int
    const startTime: int
    const endTime: int
    const startDate: int
    const endDate: int
    const startToday: bool
    const cloudThreshold: int
    const cloudAverageThreshold: int
    const rainThreshold: int

    /** Derives the window's span and the "today" flag; the flag compares the END date with today. */
    constructor(start: Timestamp, end: Timestamp, cloudThreshold: int, cloudAverageThreshold: int,
                rainThreshold: int, today: int)
      ensures days == end.date - start.date
      ensures startToday <==> end.date == today
      ensures startDate == start.date && endDate == end.date
      ensures startTime == start.minuteOfDay && endTime == end.minuteOfDay
      ensures this.cloudThreshold == cloudThreshold
      ensures this.cloudAverageThreshold == cloudAverageThreshold
      ensures this.rainThreshold == rainThreshold
    {
      var delta := end.date - start.date;
      var todayDelta := end.date - today;
      days := delta;
      startTime := start.minuteOfDay;
      endTime := end.minuteOfDay;
      startDate := start.date;
      endDate := end.date;
      if todayDelta == 0 {
        startToday := true;
      } else {
        startToday := false;
      }
      this.cloudThreshold := cloudThreshold;
      this.cloudAverageThreshold := cloudAverageThreshold;
      this.rainThreshold := rainThreshold;
    }

    /**
     * The evaluation. `report` and `forecast` stand for the weather service's
     * answers and `today` for the clock read in the forecast arm. The forecast
     * arm is never taken, so no evaluation fails and none reads the forecast.
     */
    method ComputeConstraint(report: WeatherReport, forecast: seq<seq<Interval>>, today: int)
      returns (r: Result<bool, WeatherError>)
      ensures r == Verdict(Dispatch(startToday, days), report, forecast, endDate - today,
                           endTime, cloudThreshold, cloudAverageThreshold, rainThreshold)
      ensures r == Success(if !startToday || days % 2 == 0
                           then CurrentWeatherAdmits(report, cloudThreshold, rainThreshold)
                           else true)
    {
      if BoolAndInt(startToday, days) == 0 {
        // The location check raises an AssertionError that is caught and dropped.
        var admitted := CurrentWeatherAdmits(report, cloudThreshold, rainThreshold);
        r := Success(admitted);
      } else if days == 0 {
        r := EvaluateForecast(endDate - today, forecast, endTime, cloudAverageThreshold);
      } else {
        r := Success(true);
      }
    }
  }
}
