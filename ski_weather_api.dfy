/**
 * The forecast client: an API key and the service's endpoint, a request
 * whose outcome is classified, and the nested loops that flatten a decoded
 * forecast into its table.
 */
module SkiWeather {
  import opened Wrappers
  import opened Json
  import opened Request
  import opened Forecast

  /** The World Weather Online forecast endpoint. */
  const ForecastEndpoint: string := "http://api.worldweatheronline.com/premium/v1/weather.ashx"

  /** The network call: the outcome of one GET of an endpoint with query
      parameters. */
  type Service = (string, map<string, ParamValue>) -> Exchange

  class SkiWeatherApi {
    const apiKey: string
    const baseUrl: string := ForecastEndpoint

    constructor (apiKey: string)
      ensures this.apiKey == apiKey
    {
      this.apiKey := apiKey;
    }

    /** The forecast for a location: the service is asked at the World
        Weather Online endpoint with the client's key, the location and the
        horizon as query parameters. A document handed back is the decoded
        body of a non-error response and carries no service error under
        `data`, and every such response is handed back; a service error
        with a first message fails with it; a call that raised and an error
        status fail as such, and only they do, so every other failure is
        left untranslated. */
    function GetWeatherData(location: string, numOfDays: int, service: Service): (r: Result<Json, RequestError>)
      ensures var ex := service(ForecastEndpoint, RequestParams(apiKey, location, numOfDays));
              r.Success? ==>
                && ex.Responded? && !IsErrorStatus(ex.status) && ex.body == Some(r.value)
                && Member(r.value, "data").Some?
                && PyIn("error", Member(r.value, "data").value) == Some(false)
      ensures var ex := service(ForecastEndpoint, RequestParams(apiKey, location, numOfDays));
              ex.Raised? ==> r == Failure(OtherError(ex.cause))
      ensures var ex := service(ForecastEndpoint, RequestParams(apiKey, location, numOfDays));
              ex.Responded? && IsErrorStatus(ex.status) ==> r == Failure(HttpError(ex.status))
      ensures var ex := service(ForecastEndpoint, RequestParams(apiKey, location, numOfDays));
              r.Failure? && r.error.OtherError? ==> ex.Raised?
      ensures var ex := service(ForecastEndpoint, RequestParams(apiKey, location, numOfDays));
              r.Failure? && r.error.HttpError? ==> ex.Responded? && IsErrorStatus(ex.status)
      ensures var ex := service(ForecastEndpoint, RequestParams(apiKey, location, numOfDays));
              && ex.Responded? && !IsErrorStatus(ex.status) && ex.body.Some?
              && Member(ex.body.value, "data").Some?
              && PyIn("error", Member(ex.body.value, "data").value) == Some(false)
              ==> r == Success(ex.body.value)
      ensures var ex := service(ForecastEndpoint, RequestParams(apiKey, location, numOfDays));
              && ex.Responded? && !IsErrorStatus(ex.status) && ex.body.Some?
              && Member(ex.body.value, "data").Some?
              && PyIn("error", Member(ex.body.value, "data").value) == Some(true)
              && ErrorMessage(Member(ex.body.value, "data").value).Some?
              ==> r == Failure(ApiError(ErrorMessage(Member(ex.body.value, "data").value).value))
      ensures var ex := service(ForecastEndpoint, RequestParams(apiKey, location, numOfDays));
              r.Failure? && r.error.ApiError? ==>
                && ex.Responded? && ex.body.Some? && Member(ex.body.value, "data").Some?
                && ErrorMessage(Member(ex.body.value, "data").value) == Some(r.error.message)
    {
      var params := RequestParams(apiKey, location, numOfDays);
      Classify(service(baseUrl, params))
    }

    /** Flattens a decoded forecast, day by day and hour by hour. */
    method TransformToDataframe(weatherData: Json, parse: Parser) returns (r: Result<seq<DayRecord>, TransformError>)
      ensures r == Flatten(weatherData, parse)
    {
      var hasError := PyIn("error", weatherData);
      if hasError.None? {
        return Failure(Malformed);
      }
      if hasError.value {
        var payload := Member(weatherData, "error");
        if payload.None? {
          return Failure(Malformed);
        }
        return Failure(ErrorInData(payload.value));
      }
      var weatherList := WeatherDays(weatherData);
      if weatherList.None? {
        return Failure(Malformed);
      }
      var days := weatherList.value;
      var records: seq<DayRecord> := [];
      for i := 0 to |days|
        invariant TableOf(days[..i], parse) == Some(records)
      {
        assert days[..i + 1][..i] == days[..i];
        var record := FlattenDay(days[i], parse);
        if record.None? {
          NoTableWithout(days, i, parse);
          return Failure(Malformed);
        }
        records := records + [record.value];
      }
      assert days[..|days|] == days;
      return Success(records);
    }
  }

  /** The body of the loop over days: the day's hourly samples collected
      and averaged, then its record, or None when the client raises. */
  method FlattenDay(day: Json, parse: Parser) returns (record: Option<DayRecord>)
    ensures record == DayOf(day, parse)
  {
    if !day.Obj? {
      return None;
    }
    var hourlyData := if "hourly" in day.fields then Iteration(day.fields["hourly"]) else Some([]);
    if hourlyData.None? {
      return None;
    }
    var hours := hourlyData.value;
    var ok, snowChances, visibilities := CollectSamples(hours, parse);
    if !ok {
      return None;
    }
    var avgChanceOfSnow := Mean(snowChances);
    var avgVisibility := Mean(visibilities);
    if "date" !in day.fields {
      return None;
    }
    var maxTempC := RequiredFloat(day.fields, "maxtempC", parse);
    var minTempC := RequiredFloat(day.fields, "mintempC", parse);
    var totalSnowCm := RequiredFloat(day.fields, "totalSnow_cm", parse);
    if maxTempC.None? || minTempC.None? || totalSnowCm.None? {
      return None;
    }
    record := Some(DayRecord(day.fields["date"], maxTempC.value, minTempC.value,
                             totalSnowCm.value, avgChanceOfSnow, avgVisibility));
  }

  /** The loop over a day's hourly entries: the parseable snow chances and
      visibilities, in order, or not `ok` when an entry makes the client
      raise. */
  method CollectSamples(hours: seq<Json>, parse: Parser)
    returns (ok: bool, snowChances: seq<real>, visibilities: seq<real>)
    ensures ok == AllHoursOk(hours, parse)
    ensures ok ==> snowChances == KeptSamples(hours, ChanceKey, parse)
    ensures ok ==> visibilities == KeptSamples(hours, VisibilityKey, parse)
  {
    snowChances, visibilities := [], [];
    for j := 0 to |hours|
      invariant AllHoursOk(hours[..j], parse)
      invariant snowChances == KeptSamples(hours[..j], ChanceKey, parse)
      invariant visibilities == KeptSamples(hours[..j], VisibilityKey, parse)
    {
      KeptSamplesStep(hours, j, ChanceKey, parse);
      KeptSamplesStep(hours, j, VisibilityKey, parse);
      assert forall k :: 0 <= k < j + 1 ==> hours[..j + 1][k] == hours[k];
      var hour := hours[j];
      if !hour.Obj? {
        return false, snowChances, visibilities;
      }
      var chanceOfSnow := if ChanceKey in hour.fields then hour.fields[ChanceKey] else Null;
      var visibility := if VisibilityKey in hour.fields then hour.fields[VisibilityKey] else Null;
      if !chanceOfSnow.Null? {
        match ToFloat(chanceOfSnow, parse)
        case Converted(x) =>
          snowChances := snowChances + [x];
        case ValueErr =>
        case TypeErr =>
          return false, snowChances, visibilities;
      }
      if !visibility.Null? {
        match ToFloat(visibility, parse)
        case Converted(x) =>
          visibilities := visibilities + [x];
        case ValueErr =>
        case TypeErr =>
          return false, snowChances, visibilities;
      }
    }
    assert hours[..|hours|] == hours;
    ok := true;
  }

  /** A day without a record leaves the whole forecast without a table. */
  lemma NoTableWithout(days: seq<Json>, i: nat, parse: Parser)
    requires i < |days| && DayOf(days[i], parse).None?
    ensures TableOf(days, parse).None?
  {
    TableOfPointwise(days, parse);
  }
}
