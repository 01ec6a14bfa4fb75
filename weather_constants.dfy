/**
 * The static tables of the widget: condition -> image asset, condition ->
 * background gradient, the default gradient and location, and the weekday and
 * month names used by the date line.
 */
module WeatherConstants {
  import opened Strings

  /** The four image assets the condition table points at. */
  datatype Image = Sunny | Cloudy | Rainy | Snowy

  /** The nine condition tags both tables are keyed by. */
  const ConditionTags: set<string> :=
    {"Clear", "Clouds", "Rain", "Snow", "Haze", "Mist", "Drizzle", "Thunderstorm", "Fog"}

  const WeatherImages: map<string, Image> := map[
    "Clear" := Sunny,
    "Clouds" := Cloudy,
    "Rain" := Rainy,
    "Snow" := Snowy,
    "Haze" := Cloudy,
    "Mist" := Cloudy,
    "Drizzle" := Rainy,
    "Thunderstorm" := Rainy,
    "Fog" := Cloudy
  ]

  const BackgroundGradients: map<string, string> := map[
    "Clear" := "linear-gradient(to right, #f3b07c, #fcd283)",
    "Clouds" := "linear-gradient(to right, #57d6d4, #71eeec)",
    "Rain" := "linear-gradient(to right, #5bc8fb, #80eaff)",
    "Snow" := "linear-gradient(to right, #aff2ff, #fff)",
    "Haze" := "linear-gradient(to right, #57d6d4, #71eeec)",
    "Mist" := "linear-gradient(to right, #57d6d4, #71eeec)",
    "Drizzle" := "linear-gradient(to right, #5bc8fb, #80eaff)",
    "Thunderstorm" := "linear-gradient(to right, #4a5568, #718096)",
    "Fog" := "linear-gradient(to right, #57d6d4, #71eeec)"
  ]

  const DefaultLocation: string := "Tbilisi"
  const DefaultGradient: string := "linear-gradient(to right, #f3b07c, #fcd283)"

  const DaysOfWeek: seq<string> := ["Sun", "Mon", "Tue", "Wed", "Thu", "Fri", "Sat"]

  const Months: seq<string> :=
    ["Jan", "Feb", "Mar", "Apr", "May", "Jun", "Jul", "Aug", "Sep", "Oct", "Nov", "Dec"]

  /** The weather endpoint, its unit system, the geocoding endpoint, the
      suggestion limit and the shortest term worth a suggestion request. */
  const WeatherBaseUrl: string := "https://api.openweathermap.org/data/2.5/weather"
  const GeocodingUrl: string := "https://api.openweathermap.org/geo/1.0/direct"
  const Units: string := "Metric"
  const AutocompleteLimit: nat := 5
  const AutocompleteMinChars: nat := 2

  /** What every gradient of the tables begins with: the CSS function and the
      direction the panel's background later turns into "to top". */
  const GradientHead: string := "linear-gradient("
  const ToRightHead: string := "linear-gradient(to right"

  /** Both tables are keyed by exactly the nine condition tags. */
  lemma TablesShareKeys()
    ensures WeatherImages.Keys == ConditionTags
    ensures BackgroundGradients.Keys == ConditionTags
  {
  }

  /** The name tables are total on weekday 0..6 (Sunday first) and month
      0..11 (January first), and every name has three letters. */
  lemma NameTables()
    ensures |DaysOfWeek| == 7 && DaysOfWeek[0] == "Sun"
    ensures |Months| == 12 && Months[0] == "Jan"
    ensures forall k :: 0 <= k < 7 ==> |DaysOfWeek[k]| == 3
    ensures forall k :: 0 <= k < 12 ==> |Months[k]| == 3
  {
  }

  /** The two names a date line uses are three letters each. */
  lemma NameLengths(weekday: int, month: int)
    requires 0 <= weekday < 7 && 0 <= month < 12
    ensures |DaysOfWeek[weekday]| == 3 && |Months[month]| == 3
  {
    NameTables();
  }

  /** The default gradient is the one for a clear sky. */
  lemma DefaultIsClear()
    ensures "Clear" in BackgroundGradients && DefaultGradient == BackgroundGradients["Clear"]
  {
  }

  /** Every gradient the widget can show is "linear-gradient(to right, ...)". */
  predicate ToRightGradient(g: string)
  {
    |ToRightHead| <= |g| && forall k :: 0 <= k < |ToRightHead| ==> g[k] == ToRightHead[k]
  }

  /** Such a gradient splits into the head, the direction and the rest. */
  lemma ToRightGradientParts(g: string)
    requires ToRightGradient(g)
    ensures g == GradientHead + "to right" + g[|ToRightHead|..]
  {
    assert g[..|ToRightHead|] == ToRightHead;
    assert ToRightHead == GradientHead + "to right";
  }

  lemma AllGradientsToRight()
    ensures ToRightGradient(DefaultGradient)
    ensures forall tag :: tag in BackgroundGradients ==> ToRightGradient(BackgroundGradients[tag])
  {
  }
}
