/**
 * What flattening promises: one record per day in input order, all or
 * nothing, required fields copied or parsed, and averages that are absent
 * exactly when no hourly sample parsed and otherwise the mean of exactly the
 * parsed samples.
 */
module ForecastProperties {
  import opened Wrappers
  import opened Json
  import opened Forecast

  // ---- The hourly collections ----

  /** Collecting over two runs of hours is collecting over each in turn. */
  lemma {:induction false} KeptSamplesConcat(a: seq<Json>, b: seq<Json>, key: string, parse: Parser)
    ensures KeptSamples(a + b, key, parse) == KeptSamples(a, key, parse) + KeptSamples(b, key, parse)
  {
    if b == [] {
      assert a + b == a;
    } else {
      var init := b[..|b| - 1];
      assert (a + b)[..|a + b| - 1] == a + init;
      assert (a + b)[|a + b| - 1] == b[|b| - 1];
      KeptSamplesConcat(a, init, key, parse);
    }
  }

  /** An hourly entry whose value is absent, null or unparseable contributes
      nothing: the collection is as if the entry were not there. */
  lemma UnparsedHourContributesNothing(before: seq<Json>, hour: Json, after: seq<Json>, key: string, parse: Parser)
    requires !HourSample(hour, key, parse).Kept?
    ensures KeptSamples(before + [hour] + after, key, parse) == KeptSamples(before + after, key, parse)
  {
    KeptSamplesConcat(before + [hour], after, key, parse);
    KeptSamplesConcat(before, [hour], key, parse);
    KeptSamplesConcat(before, after, key, parse);
    assert [hour][..0] == [];
  }

  /** The collection holds exactly the values that some hourly entry parses
      to, and no more values than there are entries. */
  lemma {:induction false} KeptSamplesMembers(hours: seq<Json>, key: string, parse: Parser)
    ensures |KeptSamples(hours, key, parse)| <= |hours|
    ensures forall x :: x in KeptSamples(hours, key, parse) <==>
              exists k :: 0 <= k < |hours| && HourSample(hours[k], key, parse) == Kept(x)
  {
    if hours != [] {
      var init := hours[..|hours| - 1];
      KeptSamplesMembers(init, key, parse);
      assert forall k :: 0 <= k < |init| ==> init[k] == hours[k];
      forall x | exists k :: 0 <= k < |hours| && HourSample(hours[k], key, parse) == Kept(x)
        ensures x in KeptSamples(hours, key, parse)
      {
        var k :| 0 <= k < |hours| && HourSample(hours[k], key, parse) == Kept(x);
        if k < |init| {
          assert HourSample(init[k], key, parse) == Kept(x);
        }
      }
    }
  }

  /** The collection is empty exactly when no hourly entry's value parses. */
  lemma {:induction false} KeptSamplesEmptyIff(hours: seq<Json>, key: string, parse: Parser)
    ensures KeptSamples(hours, key, parse) == [] <==>
              forall k :: 0 <= k < |hours| ==> !HourSample(hours[k], key, parse).Kept?
  {
    if hours != [] {
      var init := hours[..|hours| - 1];
      KeptSamplesEmptyIff(init, key, parse);
      assert forall k :: 0 <= k < |init| ==> init[k] == hours[k];
    }
  }

  // ---- Means ----

  lemma {:induction false} SumBounds(xs: seq<real>, lo: real, hi: real)
    requires forall k :: 0 <= k < |xs| ==> lo <= xs[k] <= hi
    ensures lo * (|xs| as real) <= Sum(xs) <= hi * (|xs| as real)
  {
    if xs != [] {
      SumBounds(xs[..|xs| - 1], lo, hi);
    }
  }

  /** A mean lies between bounds that all its values lie between: a snow
      chance averaged from percentages is a percentage. */
  lemma MeanWithinBounds(xs: seq<real>, lo: real, hi: real)
    requires xs != []
    requires forall k :: 0 <= k < |xs| ==> lo <= xs[k] <= hi
    ensures lo <= Mean(xs).value <= hi
  {
    SumBounds(xs, lo, hi);
    var n := |xs| as real;
    var m := Mean(xs).value;
    MeanTimesCount(xs);
    assert m * n == Sum(xs);
    assert (m - lo) * n >= 0.0;
    assert (hi - m) * n >= 0.0;
  }

  // ---- One day ----

  /** A day's averages are absent exactly when no hourly entry has a
      parseable value for the field, and otherwise are the means of exactly
      the parsed values (by `MeanTimesCount`, their sum over their count). */
  lemma DayAverages(day: Json, parse: Parser)
    requires DayOf(day, parse).Some?
    ensures day.Obj? && HourlyOf(day.fields).Some?
    ensures var hours := HourlyOf(day.fields).value;
            var rec := DayOf(day, parse).value;
            var chances := KeptSamples(hours, ChanceKey, parse);
            var visibilities := KeptSamples(hours, VisibilityKey, parse);
            && (rec.chanceOfSnow.None? <==>
                  forall k :: 0 <= k < |hours| ==> !HourSample(hours[k], ChanceKey, parse).Kept?)
            && rec.chanceOfSnow == Mean(chances)
            && (rec.avgVisibilityKm.None? <==>
                  forall k :: 0 <= k < |hours| ==> !HourSample(hours[k], VisibilityKey, parse).Kept?)
            && rec.avgVisibilityKm == Mean(visibilities)
  {
    var hours := HourlyOf(day.fields).value;
    var rec := DayOf(day, parse).value;
    assert RecordOf(day.fields, hours, parse) == Some(rec);
    KeptSamplesEmptyIff(hours, ChanceKey, parse);
    KeptSamplesEmptyIff(hours, VisibilityKey, parse);
  }

  /** A record copies the day's date verbatim and holds the parsed values of
      its three required numbers; a day lacking one of the four keys, or whose
      number does not convert, has no record. */
  lemma DayRequiredFields(day: Json, parse: Parser)
    ensures DayOf(day, parse).Some? ==>
              && day.Obj? && "date" in day.fields
              && DayOf(day, parse).value.date == day.fields["date"]
              && RequiredFloat(day.fields, "maxtempC", parse) == Some(DayOf(day, parse).value.maxTempC)
              && RequiredFloat(day.fields, "mintempC", parse) == Some(DayOf(day, parse).value.minTempC)
              && RequiredFloat(day.fields, "totalSnow_cm", parse) == Some(DayOf(day, parse).value.totalSnowCm)
    ensures day.Obj? &&
            ("date" !in day.fields ||
             RequiredFloat(day.fields, "maxtempC", parse).None? ||
             RequiredFloat(day.fields, "mintempC", parse).None? ||
             RequiredFloat(day.fields, "totalSnow_cm", parse).None?) ==>
              DayOf(day, parse).None?
  {
  }

  /** Hourly values that are absent, null, numbers or texts never make a day
      fail, parseable or not: the day then has a record exactly when its
      date and its three required numbers do. */
  lemma HoursOfTextNeverFail(day: Json, parse: Parser)
    requires day.Obj? && HourlyOf(day.fields).Some?
    requires forall k :: 0 <= k < |HourlyOf(day.fields).value| ==>
               var hour := HourlyOf(day.fields).value[k];
               && hour.Obj?
               && (ChanceKey in hour.fields ==> hour.fields[ChanceKey].Null? || hour.fields[ChanceKey].Str? || hour.fields[ChanceKey].Num?)
               && (VisibilityKey in hour.fields ==> hour.fields[VisibilityKey].Null? || hour.fields[VisibilityKey].Str? || hour.fields[VisibilityKey].Num?)
    ensures DayOf(day, parse).Some? <==>
              && "date" in day.fields
              && RequiredFloat(day.fields, "maxtempC", parse).Some?
              && RequiredFloat(day.fields, "mintempC", parse).Some?
              && RequiredFloat(day.fields, "totalSnow_cm", parse).Some?
  {
    var hours := HourlyOf(day.fields).value;
    forall k | 0 <= k < |hours| ensures HourOk(hours[k], parse) {
    }
  }

  /** A day without an `hourly` key counts as having no hours: both averages
      are absent while the required fields are filled in as usual. */
  lemma DayWithoutHourly(day: Json, parse: Parser)
    requires day.Obj? && "hourly" !in day.fields && "date" in day.fields
    requires RequiredFloat(day.fields, "maxtempC", parse).Some?
    requires RequiredFloat(day.fields, "mintempC", parse).Some?
    requires RequiredFloat(day.fields, "totalSnow_cm", parse).Some?
    ensures DayOf(day, parse) == Some(DayRecord(
              day.fields["date"],
              RequiredFloat(day.fields, "maxtempC", parse).value,
              RequiredFloat(day.fields, "mintempC", parse).value,
              RequiredFloat(day.fields, "totalSnow_cm", parse).value,
              None, None))
  {
  }

  // ---- The whole response ----

  /** Past the top-level error check, the table is produced exactly when
      every day's record is: there is no partial table. */
  lemma FlattenAllOrNothing(weatherData: Json, parse: Parser)
    requires weatherData.Obj? && "error" !in weatherData.fields
    requires WeatherDays(weatherData).Some?
    ensures var days := WeatherDays(weatherData).value;
            Flatten(weatherData, parse).Success? <==> forall i :: 0 <= i < |days| ==> DayOf(days[i], parse).Some?
    ensures Flatten(weatherData, parse).Failure? ==> Flatten(weatherData, parse).error == Malformed
  {
    TableOfPointwise(WeatherDays(weatherData).value, parse);
  }

  /** A single day lacking a required key, or whose required number does not
      convert, fails the whole call. */
  lemma MissingRequiredFieldFailsAll(weatherData: Json, parse: Parser, i: nat, key: string)
    requires weatherData.Obj? && "error" !in weatherData.fields
    requires WeatherDays(weatherData).Some? && i < |WeatherDays(weatherData).value|
    requires key in {"date", "maxtempC", "mintempC", "totalSnow_cm"}
    requires var day := WeatherDays(weatherData).value[i];
             day.Obj? && (key !in day.fields || (key != "date" && RequiredFloat(day.fields, key, parse).None?))
    ensures Flatten(weatherData, parse) == Failure(Malformed)
  {
    var days := WeatherDays(weatherData).value;
    DayRequiredFields(days[i], parse);
    FlattenAllOrNothing(weatherData, parse);
  }

  /** The error check looks at the top level only: a service-error body,
      whose `error` list sits under `data`, fails as malformed (there is no
      `weather` list) rather than as an error in the data. */
  lemma DataLevelErrorIsMalformed(weatherData: Json, parse: Parser)
    requires weatherData.Obj? && "error" !in weatherData.fields
    requires "data" in weatherData.fields && weatherData.fields["data"].Obj?
    requires "error" in weatherData.fields["data"].fields && "weather" !in weatherData.fields["data"].fields
    ensures Flatten(weatherData, parse) == Failure(Malformed)
  {
  }

  // ---- Worked examples ----

  const FirstHour: Json := Obj(map["chanceofsnow" := Str("10"), "visibility" := Str("10")])
  const SecondHour: Json := Obj(map["chanceofsnow" := Str("30"), "visibility" := Str("8")])

  /** The two hourly entries of the worked example are collected in order. */
  lemma TwoHourSamples(parse: Parser)
    requires parse("10") == Some(10.0) && parse("30") == Some(30.0) && parse("8") == Some(8.0)
    ensures AllHoursOk([FirstHour, SecondHour], parse)
    ensures KeptSamples([FirstHour, SecondHour], ChanceKey, parse) == [10.0, 30.0]
    ensures KeptSamples([FirstHour, SecondHour], VisibilityKey, parse) == [10.0, 8.0]
  {
    var hours := [FirstHour, SecondHour];
    assert HourSample(FirstHour, ChanceKey, parse) == Kept(10.0);
    assert HourSample(FirstHour, VisibilityKey, parse) == Kept(10.0);
    assert HourSample(SecondHour, ChanceKey, parse) == Kept(30.0);
    assert HourSample(SecondHour, VisibilityKey, parse) == Kept(8.0);
    assert hours[..1] == [FirstHour];
    assert [FirstHour][..0] == [];
    assert KeptSamples([FirstHour], ChanceKey, parse) == [10.0];
    assert KeptSamples([FirstHour], VisibilityKey, parse) == [10.0];
  }

  /** Two hourly samples, (10, 10) and (30, 8), average to a 20 % chance of
      snow and 9 km of visibility; the date is copied and the required
      numbers parsed. */
  lemma TwoHourExample(parse: Parser)
    requires parse("2") == Some(2.0) && parse("-5") == Some(-5.0) && parse("0") == Some(0.0)
    requires parse("10") == Some(10.0) && parse("30") == Some(30.0) && parse("8") == Some(8.0)
    ensures DayOf(Obj(map[
                    "date" := Str("2024-12-13"),
                    "maxtempC" := Str("2"),
                    "mintempC" := Str("-5"),
                    "totalSnow_cm" := Str("0"),
                    "hourly" := Arr([FirstHour, SecondHour])]),
                  parse)
            == Some(DayRecord(Str("2024-12-13"), 2.0, -5.0, 0.0, Some(20.0), Some(9.0)))
  {
    var fields := map[
      "date" := Str("2024-12-13"),
      "maxtempC" := Str("2"),
      "mintempC" := Str("-5"),
      "totalSnow_cm" := Str("0"),
      "hourly" := Arr([FirstHour, SecondHour])];
    TwoHourSamples(parse);
    assert HourlyOf(fields) == Some([FirstHour, SecondHour]);
    TwoHourMeans();
    assert RequiredNumbers(fields, parse) == Some((2.0, -5.0, 0.0)) by {
      assert RequiredFloat(fields, "maxtempC", parse) == Some(2.0);
      assert RequiredFloat(fields, "mintempC", parse) == Some(-5.0);
      assert RequiredFloat(fields, "totalSnow_cm", parse) == Some(0.0);
    }
    assert RecordOf(fields, [FirstHour, SecondHour], parse)
        == Some(DayRecord(Str("2024-12-13"), 2.0, -5.0, 0.0, Some(20.0), Some(9.0)));
  }

  /** The means of the worked example's collections. */
  lemma TwoHourMeans()
    ensures Mean([10.0, 30.0]) == Some(20.0)
    ensures Mean([10.0, 8.0]) == Some(9.0)
  {
    assert [10.0, 30.0][..1] == [10.0] && [10.0, 8.0][..1] == [10.0] && [10.0][..0] == [];
  }
}
