/**
 * The transform stage of the forecast client, as functions: how the nested
 * day/hour forecast is flattened into one record per day, with the hourly
 * snow chances and visibilities averaged. The client's loop that carries it
 * out is `SkiWeather.SkiWeatherApi.TransformToDataframe`.
 */
module Forecast {
  import opened Wrappers
  import opened Json

  /** One row of the forecast table. The averages are None when no hourly
      sample of the day could be used, never zero. */
  datatype DayRecord = DayRecord(
    date: Json,
    maxTempC: real,
    minTempC: real,
    totalSnowCm: real,
    chanceOfSnow: Option<real>,
    avgVisibilityKm: Option<real>)

  /** How flattening fails. */
  datatype TransformError =
      /** "Error in weather data": the document has a top-level `error` key. */
    | ErrorInData(payload: Json)
      /** Any other exception: a missing key, a value of the wrong kind, a
          required number that does not parse. */
    | Malformed

  /** The conversion of a text to a number that Python's `float()` performs:
      the number, or None when it raises ValueError. */
  type Parser = string -> Option<real>

  /** The outcome of `float(v)`. */
  datatype Conversion = Converted(value: real) | ValueErr | TypeErr

  function ToFloat(v: Json, parse: Parser): Conversion
  {
    match v
    case Num(n) => Converted(n)
    case Bool(b) => Converted(if b then 1.0 else 0.0)
    case Str(s) =>
      (match parse(s)
       case Some(x) => Converted(x)
       case None => ValueErr)
    case _ => TypeErr
  }

  const ChanceKey: string := "chanceofsnow"
  const VisibilityKey: string := "visibility"

  /** What one hourly entry contributes to the collection of one field. */
  datatype Sample =
      /** The value parsed; it joins the collection. */
    | Kept(value: real)
      /** Absent, null or not a number: skipped silently. */
    | Skipped
      /** The entry is not a dict, or the value is of a kind `float()`
          refuses with TypeError, which the client does not catch. */
    | Fatal

  function HourSample(hour: Json, key: string, parse: Parser): Sample
  {
    match hour
    case Obj(fields) =>
      if key !in fields || fields[key].Null? then Skipped
      else
        (match ToFloat(fields[key], parse)
         case Converted(x) => Kept(x)
         case ValueErr => Skipped
         case TypeErr => Fatal)
    case _ => Fatal
  }

  /** Whether an hourly entry lets the flattening go on. */
  predicate HourOk(hour: Json, parse: Parser)
  {
    HourSample(hour, ChanceKey, parse) != Fatal && HourSample(hour, VisibilityKey, parse) != Fatal
  }

  predicate AllHoursOk(hours: seq<Json>, parse: Parser)
  {
    forall k :: 0 <= k < |hours| ==> HourOk(hours[k], parse)
  }

  /** The parsed values of field `key` over the hourly entries, in order. */
  function KeptSamples(hours: seq<Json>, key: string, parse: Parser): seq<real>
  {
    if hours == [] then []
    else
      KeptSamples(hours[..|hours| - 1], key, parse) +
      (match HourSample(hours[|hours| - 1], key, parse)
       case Kept(x) => [x]
       case _ => [])
  }

  /** One more hourly entry adds its parsed value, if any, at the end. */
  lemma KeptSamplesStep(hours: seq<Json>, j: nat, key: string, parse: Parser)
    requires j < |hours|
    ensures HourSample(hours[j], key, parse).Kept? ==>
              KeptSamples(hours[..j + 1], key, parse) ==
              KeptSamples(hours[..j], key, parse) + [HourSample(hours[j], key, parse).value]
    ensures !HourSample(hours[j], key, parse).Kept? ==>
              KeptSamples(hours[..j + 1], key, parse) == KeptSamples(hours[..j], key, parse)
  {
    assert hours[..j + 1][..j] == hours[..j];
  }

  function Sum(xs: seq<real>): real
  {
    if xs == [] then 0.0 else Sum(xs[..|xs| - 1]) + xs[|xs| - 1]
  }

  /** The arithmetic mean, absent for no values. */
  function Mean(xs: seq<real>): (m: Option<real>)
    ensures m.None? <==> xs == []
  {
    if xs == [] then None else Some(Sum(xs) / (|xs| as real))
  }

  /** A mean times the number of values is their sum. */
  lemma MeanTimesCount(xs: seq<real>)
    requires xs != []
    ensures Mean(xs).value * (|xs| as real) == Sum(xs)
  {
  }

  /** The hourly entries of a day: none when the day has no `hourly` key. */
  function HourlyOf(day: map<string, Json>): Option<seq<Json>>
  {
    if "hourly" in day then Iteration(day["hourly"]) else Some([])
  }

  /** `float(day[key])`, or None when it raises. */
  function RequiredFloat(day: map<string, Json>, key: string, parse: Parser): Option<real>
  {
    if key !in day then None
    else
      match ToFloat(day[key], parse)
      case Converted(x) => Some(x)
      case _ => None
  }

  /** The record of one day, or None when building it raises. */
  function DayOf(day: Json, parse: Parser): Option<DayRecord>
  {
    match day
    case Obj(fields) =>
      (match HourlyOf(fields)
       case None => None
       case Some(hours) => if AllHoursOk(hours, parse) then RecordOf(fields, hours, parse) else None)
    case _ => None
  }

  /** The record of a day whose hourly entries all let the flattening go
      on: its date, its three required numbers and its two averages. */
  function RecordOf(fields: map<string, Json>, hours: seq<Json>, parse: Parser): Option<DayRecord>
  {
    if "date" !in fields then None
    else
      match RequiredNumbers(fields, parse)
      case None => None
      case Some(numbers) =>
        Some(DayRecord(fields["date"], numbers.0, numbers.1, numbers.2,
                       Mean(KeptSamples(hours, ChanceKey, parse)),
                       Mean(KeptSamples(hours, VisibilityKey, parse))))
  }

  /** The day's maximum and minimum temperatures and its total snow, or None
      when one of them raises. */
  function RequiredNumbers(fields: map<string, Json>, parse: Parser): Option<(real, real, real)>
  {
    var maxT := RequiredFloat(fields, "maxtempC", parse);
    var minT := RequiredFloat(fields, "mintempC", parse);
    var snow := RequiredFloat(fields, "totalSnow_cm", parse);
    if maxT.None? || minT.None? || snow.None? then None
    else Some((maxT.value, minT.value, snow.value))
  }

  /** The records of the days, or None when any one of them raises. */
  function TableOf(days: seq<Json>, parse: Parser): Option<seq<DayRecord>>
  {
    if days == [] then Some([])
    else
      match TableOf(days[..|days| - 1], parse)
      case None => None
      case Some(earlier) =>
        match DayOf(days[|days| - 1], parse)
        case None => None
        case Some(last) => Some(earlier + [last])
  }

  /** The days a loop over `weatherData['data']['weather']` visits. */
  function WeatherDays(weatherData: Json): Option<seq<Json>>
  {
    match Member(weatherData, "data")
    case None => None
    case Some(data) =>
      match Member(data, "weather")
      case None => None
      case Some(weather) => Iteration(weather)
  }

  /** The forecast table of a decoded response. */
  function Flatten(weatherData: Json, parse: Parser): (r: Result<seq<DayRecord>, TransformError>)
    ensures r.Failure? && r.error.ErrorInData? <==> weatherData.Obj? && "error" in weatherData.fields
    ensures weatherData.Obj? && "error" in weatherData.fields ==>
              r == Failure(ErrorInData(weatherData.fields["error"]))
    ensures r.Success? ==>
              && WeatherDays(weatherData).Some?
              && |r.value| == |WeatherDays(weatherData).value|
              && forall i :: 0 <= i < |r.value| ==>
                   DayOf(WeatherDays(weatherData).value[i], parse) == Some(r.value[i])
  {
    match PyIn("error", weatherData)
    case None => Failure(Malformed)
    case Some(true) =>
      (match Member(weatherData, "error")
       case None => Failure(Malformed)
       case Some(payload) => Failure(ErrorInData(payload)))
    case Some(false) =>
      match WeatherDays(weatherData)
      case None => Failure(Malformed)
      case Some(days) =>
        TableOfPointwise(days, parse);
        match TableOf(days, parse)
        case None => Failure(Malformed)
        case Some(table) => Success(table)
  }

  /** The table has one record per day, record i built from day i, and it
      exists exactly when every day's record does. */
  lemma {:induction false} TableOfPointwise(days: seq<Json>, parse: Parser)
    ensures TableOf(days, parse).Some? <==> forall i :: 0 <= i < |days| ==> DayOf(days[i], parse).Some?
    ensures TableOf(days, parse).Some? ==>
              && |TableOf(days, parse).value| == |days|
              && forall i :: 0 <= i < |days| ==> DayOf(days[i], parse) == Some(TableOf(days, parse).value[i])
  {
    if days != [] {
      var init := days[..|days| - 1];
      TableOfPointwise(init, parse);
      assert forall i :: 0 <= i < |init| ==> init[i] == days[i];
    }
  }
}
