/**
 * The formatting and validation helpers: location validation, the gradient
 * direction swap, the date line, the temperature text and the weather request
 * URL.
 */
module Helpers {
  import opened Js
  import opened Strings
  import opened WeatherConstants

  const Degree: char := '\U{00B0}'

  /** `isValidLocation`: a string that is not blank once trimmed. */
  function IsValidLocation(location: JsValue): (valid: bool)
    ensures valid <==> location.Str? && exists i :: 0 <= i < |location.s| && !IsWhitespace(location.s[i])
  {
    if location.Str? then TrimEmptyIff(location.s); Trim(location.s) != "" else false
  }

  /** The location fetched on mount passes validation. */
  lemma DefaultLocationIsValid()
    ensures IsValidLocation(Str(DefaultLocation))
  {
    assert !IsWhitespace(DefaultLocation[0]);
  }

  /** `reverseGradientDirection`: a falsy or non-string argument comes back as
      it is; a string has its first "to right" replaced by "to top". */
  function ReverseGradientDirection(gradient: JsValue): (r: JsValue)
    ensures !Truthy(gradient) || !gradient.Str? ==> r == gradient
    ensures gradient.Str? ==> r.Str? && (!Contains(gradient.s, "to right") <==> r == gradient)
  {
    if !Truthy(gradient) || !gradient.Str? then gradient
    else
      var r := ReplaceFirst(gradient.s, "to right", "to top");
      assert Contains(gradient.s, "to right") ==> |r| != |gradient.s|;
      Str(r)
  }

  /** On a gradient of the tables only the direction changes:
      "linear-gradient(to right, ...)" becomes "linear-gradient(to top, ...)". */
  lemma {:induction false} ReverseToRightGradient(g: string)
    requires ToRightGradient(g)
    ensures ReverseGradientDirection(Str(g)) == Str(GradientHead + "to top" + g[|ToRightHead|..])
    ensures ReverseGradientDirection(Str(g)) != Str(g)
  {
    var rest := g[|ToRightHead|..];
    ToRightGradientParts(g);
    forall j: nat | j < |GradientHead| ensures !OccursAt(g, "to right", j) {
      if j != 14 {
        assert g[j] == ToRightHead[j] != 't';
        assert g[j..j + 8][0] == g[j];
      } else {
        assert g[j..j + 8][1] == g[15] == '(';
      }
    }
    ReplaceFirstAtSplit(GradientHead, "to right", rest, "to top");
    assert GradientHead + "to top" + rest != g by {
      assert |GradientHead + "to top" + rest| == |g| - 2;
    }
  }

  /** Every background the widget shows is turned upwards for the inner panel. */
  lemma TableGradientsAreReversed()
    ensures ReverseGradientDirection(Str(DefaultGradient)) != Str(DefaultGradient)
    ensures forall tag :: tag in BackgroundGradients ==>
      ReverseGradientDirection(Str(BackgroundGradients[tag])) != Str(BackgroundGradients[tag])
  {
    AllGradientsToRight();
    ReverseToRightGradient(DefaultGradient);
    forall tag | tag in BackgroundGradients
      ensures ReverseGradientDirection(Str(BackgroundGradients[tag])) != Str(BackgroundGradients[tag])
    {
      ReverseToRightGradient(BackgroundGradients[tag]);
    }
  }

  /** The documented example. */
  lemma ReverseGradientExample()
    ensures ReverseGradientDirection(Str("linear-gradient(to right, #fff, #000)"))
         == Str("linear-gradient(to top, #fff, #000)")
  {
    assert GradientHead + "to top" + ", #fff, #000)" == "linear-gradient(to top, #fff, #000)";
    var g := "linear-gradient(to right, #fff, #000)";
    assert g[|ToRightHead|..] == ", #fff, #000)";
    assert ToRightGradient(g);
    ReverseToRightGradient(g);
  }

  lemma ReverseGradientAbsent()
    ensures ReverseGradientDirection(Null) == Null
    ensures ReverseGradientDirection(Undefined) == Undefined
  {
  }

  /** `formatDate` on the calendar fields of a date: weekday 0..6 from Sunday,
      day of month, month 0..11 from January. The three fields can be read
      back from the text. */
  function FormatDate(weekday: int, dayOfMonth: int, month: int): (r: string)
    requires 0 <= weekday < 7 && 0 <= month < 12
    ensures |r| >= 10
    ensures r[..3] == DaysOfWeek[weekday] && r[3..5] == ", "
    ensures r[|r| - 4] == ' ' && r[|r| - 3..] == Months[month]
    ensures r[5..|r| - 4] == IntToString(dayOfMonth)
  {
    NameLengths(weekday, month);
    var day, mon, d := DaysOfWeek[weekday], Months[month], IntToString(dayOfMonth);
    var head := day + ", ";
    var r := head + (d + (" " + mon));
    assert r[..3] == head[..3] == day;
    assert r[5..] == d + (" " + mon);
    assert r[|r| - 4..] == " " + mon;
    assert r[5..|r| - 4] == d;
    r
  }

  /** Different dates give different date lines. */
  lemma FormatDateInjective(w1: int, d1: int, m1: int, w2: int, d2: int, m2: int)
    requires 0 <= w1 < 7 && 0 <= m1 < 12 && 0 <= w2 < 7 && 0 <= m2 < 12
    requires FormatDate(w1, d1, m1) == FormatDate(w2, d2, m2)
    ensures w1 == w2 && d1 == d2 && m1 == m2
  {
    var r := FormatDate(w1, d1, m1);
    assert DaysOfWeek[w1] == DaysOfWeek[w2];
    assert Months[m1] == Months[m2];
    IntToStringInjective(d1, d2);
  }

  lemma FormatDateExample()
    ensures FormatDate(1, 15, 0) == "Mon, 15 Jan"
  {
    assert IntToString(15) == "15" by {
      assert NatToString(1) == "1";
    }
  }

  /** `formatTemperature`: the floor of the temperature, then a degree sign.
      The number in front of the sign is the greatest integer not above `temp`. */
  function FormatTemperature(temp: real): (r: string)
    ensures |r| >= 2 && r[|r| - 1] == Degree
    ensures r[..|r| - 1] == IntToString(temp.Floor)
    ensures var n := temp.Floor; n as real <= temp < n as real + 1.0
  {
    var r := IntToString(temp.Floor) + [Degree];
    assert r[..|r| - 1] == IntToString(temp.Floor);
    r
  }

  /** The temperature text reads back as the floor, so it rounds towards
      negative infinity rather than towards zero. */
  lemma FormatTemperatureReadsBack(temp: real)
    ensures var r := FormatTemperature(temp); var digits := r[..|r| - 1];
      (digits[0] != '-' ==> AllDigits(digits)) && (digits[0] == '-' ==> AllDigits(digits[1..]))
      && ParseInt(digits) as real <= temp < ParseInt(digits) as real + 1.0
  {
    IntRoundTrip(temp.Floor);
  }

  lemma FormatTemperatureExamples()
    ensures FormatTemperature(23.9) == "23" + [Degree]
    ensures FormatTemperature(0.5) == "0" + [Degree]
    ensures FormatTemperature(-0.5) == "-1" + [Degree]
    ensures FormatTemperature(-1.2) == "-2" + [Degree]
  {
    assert (23.9).Floor == 23 && (0.5).Floor == 0 && (-0.5).Floor == -1 && (-1.2).Floor == -2;
    assert NatToString(23) == "23" by {
      assert NatToString(2) == "2";
    }
  }

  /** `buildWeatherApiUrl`: the weather endpoint, "?", then the parameters q,
      units and appid in that order, joined by "&". `encode` stands for the
      form encoding `URLSearchParams` applies to each value. */
  function BuildWeatherApiUrl(location: string, apiKey: string, encode: string -> string, units: string := Units): (url: string)
    ensures url == WeatherBaseUrl + "?" + "q=" + encode(location) + "&" + "units=" + encode(units)
                   + "&" + "appid=" + encode(apiKey)
  {
    var q, u, k := encode(location), encode(units), encode(apiKey);
    JoinSmall("q=" + q, "units=" + u, "appid=" + k, "&");
    WeatherBaseUrl + "?" + Join(["q=" + q, "units=" + u, "appid=" + k], "&")
  }

  /** When the encoded values hold no '&' (which the form encoding guarantees),
      the query splits back into the three parameters, in order. */
  lemma WeatherUrlParameters(location: string, apiKey: string, encode: string -> string, units: string)
    requires '&' !in encode(location) && '&' !in encode(units) && '&' !in encode(apiKey)
    ensures var url := BuildWeatherApiUrl(location, apiKey, encode, units);
      && url[..|WeatherBaseUrl| + 1] == WeatherBaseUrl + "?"
      && Split(url[|WeatherBaseUrl| + 1..], '&')
         == ["q=" + encode(location), "units=" + encode(units), "appid=" + encode(apiKey)]
  {
    var params := ["q=" + encode(location), "units=" + encode(units), "appid=" + encode(apiKey)];
    forall k | 0 <= k < |params| ensures '&' !in params[k] {
      var key := if k == 0 then "q=" else if k == 1 then "units=" else "appid=";
      var value := if k == 0 then encode(location) else if k == 1 then encode(units) else encode(apiKey);
      assert params[k] == key + value;
    }
    SplitJoin(params, '&');
    var prefix := WeatherBaseUrl + "?";
    var url := prefix + Join(params, "&");
    assert url[..|prefix|] == prefix;
    assert url[|prefix|..] == Join(params, "&");
  }

  /** Without an explicit unit system the request asks for metric units. */
  lemma DefaultUnitsAreMetric(location: string, apiKey: string, encode: string -> string)
    ensures BuildWeatherApiUrl(location, apiKey, encode) == BuildWeatherApiUrl(location, apiKey, encode, "Metric")
  {
  }
}
