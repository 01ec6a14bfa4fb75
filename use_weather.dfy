/**
 * The weather hook: the state `data`, `loading` and `error`, and `fetchWeather`,
 * which validates the location, checks the API key, issues the request and
 * classifies the response by its `cod` field.
 *
 * `fetchWeather` is asynchronous. Its synchronous part, up to the request, is
 * `Start`; the continuation once the response (or a failure) is in, with its
 * `finally`, is `Settle`. `FetchWeather` runs the two back to back.
 */
module UseWeather {
  import opened Js
  import opened Strings
  import opened Helpers

  /** One entry of the response's `weather` array; only `main`, the
      condition tag, is read. */
  datatype Condition = Condition(main: Option<string>)

  /** A weather response body, which is also what `data` holds: `{}` at first,
      a response after a success, `{notFound: true}` after a miss. */
  datatype WeatherData = WeatherData(
    cod: JsValue,
    message: JsValue,
    name: Option<string>,
    weather: Option<seq<Condition>>,
    temp: Option<real>,
    humidity: Option<real>,
    windSpeed: Option<real>,
    notFound: bool)

  /** `{}` */
  const EmptyData: WeatherData := WeatherData(Undefined, Undefined, None, None, None, None, None, false)

  /** `{ notFound: true }` */
  const NotFoundData: WeatherData := EmptyData.(notFound := true)

  /** What the request produced: a parsed body, or a thrown error (network
      failure, unparsable body). */
  datatype FetchResult = Received(body: WeatherData) | TransportFailure

  /** The four ways a parsed body is read. */
  datatype Outcome = Success | NotFound | InvalidApiKey | OtherError

  const InvalidLocationMessage: string := "Please enter a valid location"
  const MissingApiKeyMessage: string := "API key is missing. Please add VITE_WEATHER_API_KEY to your .env file"
  const InvalidApiKeyMessage: string := "Invalid API key. Please check your configuration."
  const FetchFailedMessage: string := "Failed to fetch weather data"
  const NetworkErrorMessage: string := "Network error. Please check your internet connection."

  /** The not-found text names the location in quotes; the location can be
      read back between the fixed head and tail. */
  function NotFoundMessage(location: string): (m: string)
    ensures |m| == |NotFoundHead| + |location| + |NotFoundTail|
    ensures m[..|NotFoundHead|] == NotFoundHead
    ensures m[|NotFoundHead|..|NotFoundHead| + |location|] == location
    ensures m[|NotFoundHead| + |location|..] == NotFoundTail
    ensures Contains(m, location)
  {
    var m := NotFoundHead + location + NotFoundTail;
    assert m[|NotFoundHead|..|NotFoundHead| + |location|] == location;
    assert OccursAt(m, location, |NotFoundHead|);
    m
  }

  const NotFoundHead: string := "Location \""
  const NotFoundTail: string := "\" not found. Please try another location."

  /** The `cod` field is compared with `===`: success is the number 200, a miss
      the string "404", a rejected key the number 401. */
  function Classify(cod: JsValue): (o: Outcome)
    ensures o == Success <==> cod == Number(200.0)
    ensures o == NotFound <==> cod == Str("404")
    ensures o == InvalidApiKey <==> cod == Number(401.0)
  {
    if cod == Number(200.0) then Success
    else if cod == Str("404") then NotFound
    else if cod == Number(401.0) then InvalidApiKey
    else OtherError
  }

  /** Strict equality makes the type of `cod` matter: a numeric 404 and the
      strings "200" and "401" are generic errors. */
  lemma ClassifyIsStrict()
    ensures Classify(Number(404.0)) == OtherError
    ensures Classify(Str("200")) == OtherError
    ensures Classify(Str("401")) == OtherError
  {
  }

  /** The error once a request settles: none after a success, a message
      naming the location after a miss, and a truthy value (so one that is
      displayed) on every other branch. */
  function SettledError(location: string, result: FetchResult): (e: JsValue)
    ensures e == Null <==> result.Received? && Classify(result.body.cod) == Success
    ensures e != Null ==> Truthy(e)
    ensures result.Received? && Classify(result.body.cod) == NotFound ==>
      e == Str(NotFoundMessage(location)) && Contains(e.s, location)
    ensures result.TransportFailure? ==> e == Str(NetworkErrorMessage)
    ensures result.Received? && Classify(result.body.cod) == InvalidApiKey ==> e == Str(InvalidApiKeyMessage)
  {
    match result
    case TransportFailure => Str(NetworkErrorMessage)
    case Received(body) =>
      match Classify(body.cod)
      case Success => Null
      case NotFound => Str(NotFoundMessage(location))
      case InvalidApiKey => Str(InvalidApiKeyMessage)
      case OtherError => if Truthy(body.message) then body.message else Str(FetchFailedMessage)
  }

  /** A generic error shows the server's message when it has one. */
  lemma OtherErrorMessage(location: string, body: WeatherData)
    requires Classify(body.cod) == OtherError
    ensures Truthy(body.message) ==> SettledError(location, Received(body)) == body.message
    ensures !Truthy(body.message) ==> SettledError(location, Received(body)) == Str(FetchFailedMessage)
  {
  }

  /** `data` once a request settles: replaced wholesale by the body after a
      success, the not-found marker after a miss, untouched otherwise. */
  function SettledData(data: WeatherData, result: FetchResult): (d: WeatherData)
    ensures result.Received? && Classify(result.body.cod) == Success ==> d == result.body
    ensures result.Received? && Classify(result.body.cod) == NotFound ==> d == NotFoundData && d.notFound
    ensures !(result.Received? && Classify(result.body.cod) in {Success, NotFound}) ==> d == data
  {
    match result
    case TransportFailure => data
    case Received(body) =>
      match Classify(body.cod)
      case Success => body
      case NotFound => NotFoundData
      case _ => data
  }

  class WeatherHook {
    /** The key the hook was created with; "" stands for a missing key. */
    const apiKey: string
    /** The form encoding `URLSearchParams` applies to parameter values. */
    const encode: string -> string

    var data: WeatherData
    var loading: bool
    var error: JsValue

    constructor (apiKey: string, encode: string -> string)
      ensures this.apiKey == apiKey && this.encode == encode
      ensures data == EmptyData && !loading && error == Null
    {
      this.apiKey := apiKey;
      this.encode := encode;
      data := EmptyData;
      loading := false;
      error := Null;
    }

    /** The guards and the start of a request: an invalid location or a
        missing key only set the error; otherwise the request is issued with
        `loading` on and the error cleared. `data` is never touched. */
    twostate predicate Started(location: string, new request: Option<string>)
      reads this
    {
      && data == old(data)
      && (if !IsValidLocation(Str(location)) then
            request == None && error == Str(InvalidLocationMessage) && loading == old(loading)
          else if apiKey == "" then
            request == None && error == Str(MissingApiKeyMessage) && loading == old(loading)
          else
            request == Some(BuildWeatherApiUrl(location, apiKey, encode)) && loading && error == Null)
    }

    method Start(location: string) returns (request: Option<string>)
      modifies this
      ensures Started(location, request)
    {
      if !IsValidLocation(Str(location)) {
        error := Str(InvalidLocationMessage);
        return None;
      }
      if apiKey == "" {
        error := Str(MissingApiKeyMessage);
        return None;
      }
      loading := true;
      error := Null;
      request := Some(BuildWeatherApiUrl(location, apiKey, encode));
    }

    /** The continuation after `await`: classify, update, and in every case
        (the `finally`) turn `loading` off. */
    method Settle(location: string, result: FetchResult)
      modifies this
      ensures data == SettledData(old(data), result)
      ensures error == SettledError(location, result)
      ensures !loading
    {
      match result {
        case TransportFailure =>
          error := Str(NetworkErrorMessage);
        case Received(body) =>
          if body.cod == Number(200.0) {
            data := body;
            error := Null;
          } else if body.cod == Str("404") {
            error := Str(NotFoundMessage(location));
            data := NotFoundData;
          } else if body.cod == Number(401.0) {
            error := Str(InvalidApiKeyMessage);
          } else {
            error := if Truthy(body.message) then body.message else Str(FetchFailedMessage);
          }
      }
      loading := false;
    }

    /** `fetchWeather` when nothing else happens while the request is out. */
    method FetchWeather(location: string, result: FetchResult) returns (request: Option<string>)
      modifies this
      ensures request.Some? <==> IsValidLocation(Str(location)) && apiKey != ""
      ensures request.None? ==> Started(location, request)
      ensures request.Some? ==> && data == SettledData(old(data), result)
                                && error == SettledError(location, result)
                                && !loading
    {
      request := Start(location);
      if request.Some? {
        Settle(location, result);
      }
    }
  }
}
