# wwoski forecast client, modelled in Dafny

This project models the core of `SkiWeatherAPI` from the wwoski package. The class is a small client for the World Weather Online forecast service. The model covers its two stages:

- **Request stage** (`get_weather_data`). The client builds a fixed set of five query parameters and makes one call to the forecast endpoint. It then classifies the outcome, first match wins: an HTTP error status, any other exception from the call, or an error reported by the service under `data.error`. Otherwise it hands back the decoded body unchanged.
- **Transform stage** (`transform_to_dataframe`). The client rejects a document with a top-level `error` key. It then walks `data.weather[*].hourly[*]` and emits one record per day, in input order. Each record carries the day's date verbatim and three required numbers (`maxtempC`, `mintempC`, `totalSnow_cm`). It also carries two optional averages of the hourly `chanceofsnow` and `visibility` samples. Hourly values that are absent, null or unparseable are skipped. An average with no samples is absent, never zero. Any failure on a required field fails the whole call.

Files:

- `wrappers.dfy`: `Option` and `Result`.
- `json.dfy`: decoded JSON values and the Python operations the client applies to them: `v[key]`, `v[i]`, `key in v` (for a dict, a list and a string), and `for x in v`.
- `request.dfy`: the query parameters, the outcome of the call (`Exchange`) and its classification.
- `forecast.dfy`: the transform as functions. `ToFloat` is Python's `float()`. `HourSample` is what one hourly entry contributes, `DayOf` builds one record, `TableOf` the records in order, and `Flatten` handles the whole document.
- `forecast_properties.dfy`: the lemmas on the transform.
- `ski_weather_api.dfy`: the class `SkiWeatherApi` and the two loops of the transform.
  - The class method `TransformToDataframe` runs the loop over days and is proved equal to `Flatten`.
  - The loop body for one day is the module-level method `FlattenDay`, proved equal to `DayOf`.
  - The loop over that day's hours is the module-level method `CollectSamples`, proved to collect exactly `KeptSamples`.

The network call and Python's text-to-number conversion are parameters of the model:

- `service: (url, params) -> Exchange` stands for `requests.get` and `response.json()`. Its outcome is either the exception the call raised or the status code together with the body decoded as JSON (None when the body is not JSON). `raise_for_status` is the `IsErrorStatus` test in `Classify`.
- `parse: string -> Option<real>` stands for `float()` applied to a string. A None result means `float()` raised `ValueError`.

Numbers are `real`, so a mean is the exact sum divided by the exact count.

In these places the model follows the code as written:

- Several bodies raise outside the `try` block (`src/wwoski/wwoski.py:44-47`): a body that is not JSON, a body without a `data` key, a body whose `data` is not a dict, a list or a string, a `data` list or string that contains "error" (line 47 then subscripts it by a key), and an `error` list with no first entry holding `msg`, such as an empty one. A `data` that is a list or a string is tested with Python's `in`. When it does not contain "error", the body is returned. The model gives them their own outcome, `Uncaught`. They are not turned into a request error.
- The request stage tests whether the key `error` is *present* under `data`, not whether its list is non-empty (line 46).
- The transform stage tests for `error` at the *top level* of the document, not under `data` (line 63). A service-error body that reaches it therefore fails because it has no `weather` key. `DataLevelErrorIsMalformed` states this.
- An hourly value that is a list or a dict makes `float()` raise `TypeError`. `except ValueError` does not catch that, so the whole call fails. Only values that are absent, null, or a string that does not parse are skipped. A JSON number or boolean is converted.

## Model

Functions whose row says "reference definition" have no contract of their own. They state the Python semantics the other members are proved against, and the lemmas named in the row are about them.

| member | source | states |
|---|---|---|
| `Json.PyIn` | src/wwoski/wwoski.py:46-63 | Reference definition of Python's `key in v` at lines 46 and 63. A dict tests its keys, a list its elements, a string its substrings. Any other value raises `TypeError`. The substring test is the helper `IsSubstring`, part of this definition. |
| `Json.Iteration` | src/wwoski/wwoski.py:68-73 | Reference definition of the `for` loops at lines 68 and 73. A list visits its items and a string its characters. An empty dict visits nothing. A non-empty dict fails, because its keys are strings, which have no `.get`. Scalars raise `TypeError`. |
| `Json.Member` | src/wwoski/wwoski.py:46-96 | Reference definition of `v[key]` at lines 46-47, 64, 66 and 93-96. A dict holding the key gives its value. A missing key (`KeyError`) or any other kind of value (`TypeError`) gives None. |
| `Json.Item` | src/wwoski/wwoski.py:47-47 | Reference definition of `[0]` on the error list: an item of a list. An index past the end (`IndexError`) or a dict (`KeyError`) gives None. |
| `Request.IsErrorStatus` | src/wwoski/wwoski.py:38-38 | Reference definition of the status test of `raise_for_status`: 400 to 599 inclusive. |
| `Request.ErrorMessage` | src/wwoski/wwoski.py:47-47 | Reference definition of `weather_data["data"]["error"][0]["msg"]`, None when one of the subscripts raises. Lemma: `ServiceErrorNeverReturned`. |
| `Request.RequestParams` | src/wwoski/wwoski.py:28-34 | The parameters are exactly `key`, `q`, `num_of_days`, `format`, `tp`. The caller's key, location and horizon pass through unchanged, with `format` = "json" and `tp` = 24. |
| `Request.Classify` | src/wwoski/wwoski.py:36-50 | Classification, first match wins. A call that raised gives "other error" with its cause, and nothing else does. A 4xx/5xx status gives "HTTP error", and nothing else does, so a non-JSON body, a missing `data`, a `data` of another kind or an `error` without a first `msg` stays uncaught. The call succeeds exactly when the status is not an error, the body decodes, `data` exists and does not contain `error`. On success the body is returned unchanged. An API error carries `data.error[0].msg`. |
| `Request.ServiceErrorNeverReturned` | src/wwoski/wwoski.py:46-48 | A body whose `data` dict has an `error` key is never returned. It gives an API error with the first message when there is one. An empty error list raises outside the handled exceptions. |
| `SkiWeather.SkiWeatherApi.constructor` | src/wwoski/wwoski.py:6-14 | The client keeps the key it was given. Its base URL is the World Weather Online endpoint, fixed as a constant. |
| `SkiWeather.SkiWeatherApi.GetWeatherData` | src/wwoski/wwoski.py:16-50 | The service is asked at the World Weather Online endpoint, with the parameters built from the client's key, the location and the horizon. A document is returned exactly for a non-error response whose body decodes and whose `data` does not contain `error`, and it is that body unchanged. A non-error response whose `data` contains `error` with a first `msg` fails as an API error carrying that message. A call that raised fails as "other error" with its cause, and only such a call does. An error status fails as "HTTP error", and only an error status does. An API error carries `data.error[0].msg` of that response. |
| `SkiWeather.SkiWeatherApi.TransformToDataframe` | src/wwoski/wwoski.py:52-101 | The loop over days, appending one record per day, computes exactly `Flatten`: the same table, or the same failure. |
| `SkiWeather.FlattenDay` | src/wwoski/wwoski.py:68-99 | The loop body for one day collects the hourly samples, averages them and reads the required fields. It yields exactly that day's record (`DayOf`), or nothing when the client would raise. |
| `SkiWeather.CollectSamples` | src/wwoski/wwoski.py:70-87 | The loop over one day's hours succeeds exactly when no entry makes the client raise. It then yields exactly the parsed snow chances and visibilities, in order. |
| `SkiWeather.NoTableWithout` | src/wwoski/wwoski.py:92-101 | One day without a record leaves the whole call without a table. |
| `Forecast.ToFloat` | src/wwoski/wwoski.py:79-96 | Reference definition of `float(v)` on a decoded value. A number converts to itself and a boolean to 1 or 0. A string converts to what `parse` gives; otherwise `ValueError`. Null, a list or a dict raises `TypeError`. |
| `Forecast.HourSample` | src/wwoski/wwoski.py:73-87 | Reference definition of what one hourly entry adds to one collection. An absent or null value, or a `ValueError`, is skipped. A `TypeError`, or an entry that is not a dict, is fatal. `HourOk` (no hour is fatal for either key) and `AllHoursOk` (every hour is) are part of this definition. Lemmas: `KeptSamplesMembers`, `UnparsedHourContributesNothing`, `HoursOfTextNeverFail`. |
| `Forecast.KeptSamples` | src/wwoski/wwoski.py:70-87 | Reference definition of the `snow_chances` / `visibilities` lists: the kept values in hour order. Lemmas: `KeptSamplesConcat`, `KeptSamplesMembers`, `KeptSamplesEmptyIff`. |
| `Forecast.KeptSamplesStep` | src/wwoski/wwoski.py:77-87 | One more hourly entry appends its parsed value, if it has one, and otherwise leaves the list unchanged. |
| `Forecast.Sum` | src/wwoski/wwoski.py:89-90 | Reference definition of `sum(...)` over exact reals. Lemmas: `SumBounds`, `MeanTimesCount`. |
| `Forecast.HourlyOf` | src/wwoski/wwoski.py:69-69 | Reference definition of `day.get('hourly', [])` iterated: no hours without the key, otherwise the loop over its value. Lemma: `DayWithoutHourly`. |
| `Forecast.RequiredFloat` | src/wwoski/wwoski.py:94-96 | Reference definition of `float(day[key])`: None for a missing key or any conversion error. Lemmas: `DayRequiredFields`, `MissingRequiredFieldFailsAll`. |
| `Forecast.WeatherDays` | src/wwoski/wwoski.py:66-68 | Reference definition of the days visited by the loop over `weather_data['data']['weather']`. Lemmas: `Flatten`, `FlattenAllOrNothing`. |
| `Forecast.Mean` | src/wwoski/wwoski.py:89-90 | The average is absent exactly when there are no samples. |
| `Forecast.MeanTimesCount` | src/wwoski/wwoski.py:89-90 | A present average, times the number of samples, is their sum. |
| `Forecast.DayOf` | src/wwoski/wwoski.py:68-99 | Reference definition of one day's record: the day must be a dict, its hours iterable and all usable, and its date and numbers present. Lemmas: `DayAverages`, `DayRequiredFields`, `DayWithoutHourly`, `HoursOfTextNeverFail`. |
| `Forecast.RecordOf` | src/wwoski/wwoski.py:89-99 | Reference definition of the appended dict: date, three numbers and two means. |
| `Forecast.RequiredNumbers` | src/wwoski/wwoski.py:94-96 | Reference definition of the three `float()` calls on `maxtempC`, `mintempC` and `totalSnow_cm`. |
| `Forecast.TableOf` | src/wwoski/wwoski.py:66-99 | Reference definition of the records of all days, or none when one day raises. Lemmas: `TableOfPointwise`, `FlattenAllOrNothing`. |
| `Forecast.Flatten` | src/wwoski/wwoski.py:63-101 | A top-level `error` key gives "error in weather data" with its payload, and that is the only way to get that error. On success there is one record per entry of `data.weather`, and record i is built from day i. |
| `Forecast.TableOfPointwise` | src/wwoski/wwoski.py:66-99 | The list of days yields a table exactly when every day yields a record. The table then has one record per day, in the same order. |
| `ForecastProperties.KeptSamplesConcat` | src/wwoski/wwoski.py:73-87 | Hourly samples are collected in order: collecting over two runs of hours is the concatenation of collecting over each. |
| `ForecastProperties.UnparsedHourContributesNothing` | src/wwoski/wwoski.py:77-87 | An hourly entry whose value is absent, null or unparseable leaves the collection as if the entry were not there. |
| `ForecastProperties.KeptSamplesMembers` | src/wwoski/wwoski.py:73-87 | A value is collected exactly when some hourly entry parses to it, and there are no more samples than hours. |
| `ForecastProperties.KeptSamplesEmptyIff` | src/wwoski/wwoski.py:73-89 | The collection is empty exactly when no hourly entry's value parses. |
| `ForecastProperties.SumBounds` | src/wwoski/wwoski.py:89-90 | When every sample lies within bounds, the sum lies within count times those bounds. |
| `ForecastProperties.MeanWithinBounds` | src/wwoski/wwoski.py:89-90 | An average lies within any bounds that hold for all its samples. |
| `ForecastProperties.DayAverages` | src/wwoski/wwoski.py:70-90 | `chance_of_snow` (and likewise `avg_visibility_km`) is absent exactly when no hourly entry of the day has a parseable value. Otherwise it is the mean of exactly the parsed values; by `MeanTimesCount`, their sum over their count. |
| `ForecastProperties.DayRequiredFields` | src/wwoski/wwoski.py:92-96 | The date is copied verbatim and the three required numbers are the converted values of `maxtempC`, `mintempC` and `totalSnow_cm`. A missing key or an unconvertible number gives no record. |
| `ForecastProperties.HoursOfTextNeverFail` | src/wwoski/wwoski.py:73-87 | Hourly values that are absent, null, numbers or strings never make a day fail. Such a day has a record exactly when its required fields convert. |
| `ForecastProperties.DayWithoutHourly` | src/wwoski/wwoski.py:69-90 | A day without an `hourly` key has no hours: both averages are absent and the required fields are still filled in. |
| `ForecastProperties.FlattenAllOrNothing` | src/wwoski/wwoski.py:66-101 | Past the top-level check, the table is produced exactly when every day yields a record. Otherwise the call fails, and no partial table is returned. |
| `ForecastProperties.MissingRequiredFieldFailsAll` | src/wwoski/wwoski.py:92-101 | One day that lacks `date`, `maxtempC`, `mintempC` or `totalSnow_cm`, or whose number does not convert, fails the whole call. |
| `ForecastProperties.DataLevelErrorIsMalformed` | src/wwoski/wwoski.py:63-66 | The error check looks only at the top level. A service-error body, whose error sits under `data`, fails for lack of `weather` instead. |
| `ForecastProperties.TwoHourSamples` | src/wwoski/wwoski.py:73-87 | The hours (10, 10) and (30, 8) collect to the chances [10, 30] and the visibilities [10, 8]. |
| `ForecastProperties.TwoHourMeans` | src/wwoski/wwoski.py:89-90 | The means of [10, 30] and [10, 8] are 20 and 9. |
| `ForecastProperties.TwoHourExample` | src/wwoski/wwoski.py:68-99 | The day 2024-12-13 with max 2, min -5, snow 0 and those two hours yields a chance of snow of 20 and a visibility of 9. |

## Left out

- `requests.get`, `raise_for_status` and `response.json()` are network I/O and JSON decoding. They are replaced by the `service` parameter and the `Exchange` it returns.
- `save_to_csv` writes a file through pandas. It is not modelled.
- `plot_weather_data` draws a matplotlib chart. It is presentation only and is not modelled.
- `pd.DataFrame(records)` is not modelled. The table is the sequence of `DayRecord`s it is built from.
- Python's rules for `float()` on strings are a parameter (`parse`), not a definition.
- IEEE rounding in `sum(...) / len(...)` is not modelled: numbers are exact reals.
- `float()` on an integer too large for a float raises `OverflowError`. The model converts every JSON number.
- The exact wording of error messages is not modelled. The model keeps which error occurs and what it carries: the status, the cause, the service's message, or the top-level error payload.
- Python exception types raised inside the transform (`KeyError`, `TypeError`, `AttributeError`, `ValueError`) are collapsed into `Malformed`.
- Exceptions raised after the guarded call in the request stage are collapsed into `Uncaught`.
- A dict's key order is not modelled. Looping over a non-empty dict where a list is expected is modelled as the failure it causes, because its first element is a key string, which has no `.get`.
