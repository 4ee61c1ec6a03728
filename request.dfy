/**
 * The request stage of the forecast client: the query parameters sent to the
 * weather service and the classification of what the single call came back
 * with. The call itself is not modelled; its outcome is an `Exchange`.
 */
module Request {
  import opened Wrappers
  import opened Json

  /** A query parameter value: the client sends texts and integers. */
  datatype ParamValue = Text(text: string) | Int(number: int)

  /** The response format asked of the service. */
  const ResponseFormat: string := "json"

  /** The `tp` parameter: hours between samples, 24 meaning one per day. */
  const HoursPerSample: int := 24

  /** The query parameters of a forecast request: the caller's key,
      location and horizon, passed through unchanged, plus the two fixed
      ones, and nothing else. */
  function RequestParams(apiKey: string, location: string, numOfDays: int): (params: map<string, ParamValue>)
    ensures params.Keys == {"key", "q", "num_of_days", "format", "tp"}
    ensures params["key"] == Text(apiKey)
    ensures params["q"] == Text(location)
    ensures params["num_of_days"] == Int(numOfDays)
    ensures params["format"] == Text("json") && params["tp"] == Int(24)
  {
    map["key" := Text(apiKey),
        "q" := Text(location),
        "num_of_days" := Int(numOfDays),
        "format" := Text(ResponseFormat),
        "tp" := Int(HoursPerSample)]
  }

  /** What the single call to the service came back with. */
  datatype Exchange =
      /** The call raised before a response was at hand (connection refused,
          timeout, TLS failure, ...), with the exception's description. */
    | Raised(cause: string)
      /** A response with its status code and its body, None when the body
          does not decode as JSON. */
    | Responded(status: int, body: Option<Json>)

  /** How a request fails. */
  datatype RequestError =
      /** "HTTP error occurred": the status is a client or server error. */
    | HttpError(status: int)
      /** "Other error occurred": the call itself raised. */
    | OtherError(cause: string)
      /** "Error from API": the service reported an error; its first message. */
    | ApiError(message: Json)
      /** An exception raised after the guarded call and not translated:
          the body is not JSON, has no `data` key, has a `data` that is not
          a dict, a list or a string, has a `data` list or string that
          contains "error" (it cannot be subscripted by a key), or its error
          list has no first entry with a `msg`. */
    | Uncaught

  /** The statuses for which the response reports an HTTP error. */
  predicate IsErrorStatus(status: int)
  {
    400 <= status < 600
  }

  /** `data["error"][0]["msg"]`, or None when one of the subscripts raises. */
  function ErrorMessage(data: Json): Option<Json>
  {
    match Member(data, "error")
    case None => None
    case Some(errors) =>
      match Item(errors, 0)
      case None => None
      case Some(first) => Member(first, "msg")
  }

  /** The outcome of a forecast request, given what the call came back with:
      the first matching case of HTTP error, other error, service-reported
      error; otherwise the decoded body, unchanged. */
  function Classify(ex: Exchange): (r: Result<Json, RequestError>)
    ensures ex.Raised? ==> r == Failure(OtherError(ex.cause))
    ensures ex.Responded? && IsErrorStatus(ex.status) ==> r == Failure(HttpError(ex.status))
    ensures r.Failure? && r.error.OtherError? ==> ex.Raised?
    ensures r.Failure? && r.error.HttpError? ==> ex.Responded? && IsErrorStatus(ex.status)
    ensures r.Success? <==>
              && ex.Responded? && !IsErrorStatus(ex.status) && ex.body.Some?
              && Member(ex.body.value, "data").Some?
              && PyIn("error", Member(ex.body.value, "data").value) == Some(false)
    ensures r.Success? ==> ex.body == Some(r.value)
    ensures r.Failure? && r.error.ApiError? ==>
              && ex.Responded? && ex.body.Some?
              && Member(ex.body.value, "data").Some?
              && ErrorMessage(Member(ex.body.value, "data").value) == Some(r.error.message)
  {
    match ex
    case Raised(cause) => Failure(OtherError(cause))
    case Responded(status, body) =>
      if IsErrorStatus(status) then Failure(HttpError(status))
      else
        match body
        case None => Failure(Uncaught)
        case Some(json) =>
          match Member(json, "data")
          case None => Failure(Uncaught)
          case Some(data) =>
            match PyIn("error", data)
            case None => Failure(Uncaught)
            case Some(false) => Success(json)
            case Some(true) =>
              match ErrorMessage(data)
              case None => Failure(Uncaught)
              case Some(message) => Failure(ApiError(message))
  }

  /** A body whose `data` dict holds an `error` key is never handed on,
      whatever the key holds: the request fails with the first message when
      there is one, and with an untranslated exception when the error list is
      empty. */
  lemma ServiceErrorNeverReturned(status: int, body: Json)
    requires !IsErrorStatus(status)
    requires Member(body, "data").Some? && Member(body, "data").value.Obj?
    requires "error" in Member(body, "data").value.fields
    ensures Classify(Responded(status, Some(body))).Failure?
    ensures var data := Member(body, "data").value;
            ErrorMessage(data).Some? ==>
              Classify(Responded(status, Some(body))) == Failure(ApiError(ErrorMessage(data).value))
    ensures Member(body, "data").value.fields["error"] == Arr([]) ==>
              Classify(Responded(status, Some(body))) == Failure(Uncaught)
  {
  }
}
