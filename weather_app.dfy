/**
 * The widget component: the search box state (`location`, `selectedIndex`,
 * `showSuggestions`), its event handlers, and the pure choices the render makes
 * (condition image and background, which panel, whether the dropdown shows).
 *
 * The two hooks are objects the component holds. A handler that calls
 * `fetchWeather` runs the synchronous part of it (`WeatherHook.Start`); the
 * answer arrives later through `WeatherHook.Settle`. React batches the state
 * updates of one handler, so a handler reads the state it started with.
 */
module WeatherApp {
  import opened Js
  import opened Strings
  import opened WeatherConstants
  import opened Helpers
  import opened UseWeather
  import opened UseCityAutocomplete

  datatype Key = Enter | ArrowDown | ArrowUp | Escape | OtherKey

  /** The highlight is "none" (-1) or a position in a list of `count`. */
  predicate InRange(index: int, count: nat)
  {
    -1 <= index < count
  }

  /** The updater ArrowDown passes to `setSelectedIndex`: one step down,
      stopping at the last suggestion. */
  function NextIndex(prev: int, count: nat): (i: int)
    ensures prev <= i <= prev + 1
    ensures i == prev + 1 <==> prev < count - 1
    ensures InRange(prev, count) ==> InRange(i, count)
  {
    if prev < count - 1 then prev + 1 else prev
  }

  /** The updater ArrowUp passes: one step up, and from the first suggestion
      (or from "none") to "none". */
  function PrevIndex(prev: int): (i: int)
    ensures i >= -1
    ensures prev > 0 ==> i == prev - 1
    ensures prev <= 0 ==> i == -1
  {
    if prev > 0 then prev - 1 else -1
  }

  function PressDown(index: int, count: nat, presses: nat): int
    decreases presses
  {
    if presses == 0 then index else PressDown(NextIndex(index, count), count, presses - 1)
  }

  function PressUp(index: int, presses: nat): int
    decreases presses
  {
    if presses == 0 then index else PressUp(PrevIndex(index), presses - 1)
  }

  function Min(a: int, b: int): int { if a <= b then a else b }
  function Max(a: int, b: int): int { if a >= b then a else b }

  /** Repeated ArrowDown is clamped at the last suggestion; it never wraps. */
  lemma {:induction false} PressDownClamps(index: int, count: nat, presses: nat)
    requires InRange(index, count)
    ensures PressDown(index, count, presses) == Min(index + presses, count - 1)
    decreases presses
  {
    if presses > 0 {
      PressDownClamps(NextIndex(index, count), count, presses - 1);
    }
  }

  /** Repeated ArrowUp is clamped at "none"; it never wraps. */
  lemma {:induction false} PressUpClamps(index: int, presses: nat)
    requires index >= -1
    ensures PressUp(index, presses) == Max(index - presses, -1)
    decreases presses
  {
    if presses > 0 {
      PressUpClamps(PrevIndex(index), presses - 1);
    }
  }

  /** With three suggestions and nothing highlighted, five ArrowDowns stop at
      the third suggestion; one ArrowUp from there goes back to the second. */
  lemma KeyboardExample()
    ensures PressDown(-1, 3, 5) == 2
    ensures PressUp(2, 1) == 1
  {
    PressDownClamps(-1, 3, 5);
  }

  /** `data.weather?.[0]?.main` */
  function WeatherCondition(data: WeatherData): (c: Option<string>)
    ensures data.weather.None? || data.weather.value == [] ==> c.None?
    ensures data.weather.Some? && data.weather.value != [] ==> c == data.weather.value[0].main
  {
    match data.weather
    case Some(entries) => if entries != [] then entries[0].main else None
    case None => None
  }

  /** The condition is used only when it is truthy (a non-empty string). */
  predicate HasCondition(data: WeatherData)
  {
    WeatherCondition(data).Some? && WeatherCondition(data).value != ""
  }

  /** The image: `null` without a condition, else the table entry, which is
      `undefined` (None) for a tag the table does not have. */
  function WeatherImage(data: WeatherData): (image: Option<Image>)
    ensures image.Some? <==> HasCondition(data) && WeatherCondition(data).value in ConditionTags
    ensures image.Some? ==> image.value == WeatherImages[WeatherCondition(data).value]
  {
    TablesShareKeys();
    if !HasCondition(data) then None
    else
      var tag := WeatherCondition(data).value;
      if tag in WeatherImages then Some(WeatherImages[tag]) else None
  }

  /** The background: the default gradient without a condition, else the
      table entry, which is `undefined` (None) for an unknown tag. */
  function Background(data: WeatherData): (background: Option<string>)
    ensures !HasCondition(data) ==> background == Some(DefaultGradient)
    ensures HasCondition(data) ==>
      (background.Some? <==> WeatherCondition(data).value in ConditionTags)
    ensures HasCondition(data) && background.Some? ==>
      background.value == BackgroundGradients[WeatherCondition(data).value]
    ensures background.Some? ==> ToRightGradient(background.value)
  {
    TablesShareKeys();
    AllGradientsToRight();
    if !HasCondition(data) then Some(DefaultGradient)
    else
      var tag := WeatherCondition(data).value;
      if tag in BackgroundGradients then Some(BackgroundGradients[tag]) else None
  }

  /** The inner panel's background: the outer one turned from "to right" to
      "to top" whenever there is one. */
  lemma InnerBackgroundTurned(data: WeatherData)
    ensures Background(data).Some? ==>
      var g := Background(data).value;
      && ReverseGradientDirection(Str(g)) == Str(GradientHead + "to top" + g[|ToRightHead|..])
      && ReverseGradientDirection(Str(g)) != Str(g)
    ensures Background(data).None? ==> ReverseGradientDirection(Undefined) == Undefined
  {
    if Background(data).Some? {
      ReverseToRightGradient(Background(data).value);
    }
  }

  datatype Panel = LoaderPanel | NotFoundPanel | WeatherPanel | NoPanel

  /** The result area: the loader while loading, then the not-found
      placeholder, then the weather panel, else nothing. */
  function PanelFor(loading: bool, data: WeatherData): (p: Panel)
    ensures p == LoaderPanel <==> loading
    ensures p == NotFoundPanel <==> !loading && data.notFound
    ensures p == WeatherPanel <==> !loading && !data.notFound && data.weather.Some?
  {
    if loading then LoaderPanel
    else if data.notFound then NotFoundPanel
    else if data.weather.Some? then WeatherPanel
    else NoPanel
  }

  /** The dropdown shows only while open and non-empty. */
  function ShowDropdown(showSuggestions: bool, suggestions: seq<Suggestion>): (shown: bool)
    ensures shown <==> showSuggestions && |suggestions| > 0
  {
    showSuggestions && |suggestions| > 0
  }

  /** `data.name || "Search for a location"` */
  function LocationTitle(data: WeatherData): (title: string)
    ensures title != ""
    ensures data.name.Some? && data.name.value != "" ==> title == data.name.value
    ensures !(data.name.Some? && data.name.value != "") ==> title == "Search for a location"
  {
    if data.name.Some? && data.name.value != "" then data.name.value else "Search for a location"
  }

  /** What the result area shows once a request has settled: the
      placeholder after a miss, the weather after a success, and after any
      other outcome the previous panel stays, under a displayed error. */
  lemma SettledView(data: WeatherData, location: string, result: FetchResult)
    ensures var d := SettledData(data, result); var e := SettledError(location, result);
      && (result.Received? && Classify(result.body.cod) == NotFound ==>
            && PanelFor(false, d) == NotFoundPanel && Truthy(e)
            && LocationTitle(d) == "Search for a location"
            && WeatherImage(d).None? && Background(d) == Some(DefaultGradient))
      && ((result.Received? && Classify(result.body.cod) == Success && !result.body.notFound
           && result.body.weather.Some?) ==> PanelFor(false, d) == WeatherPanel && !Truthy(e))
      && (!(result.Received? && Classify(result.body.cod) in {Success, NotFound}) ==>
            PanelFor(false, d) == PanelFor(false, data) && Truthy(e))
  {
  }

  /** `formatTemperature(data.main?.temp)`; a missing temperature floors to NaN. */
  function TemperatureText(data: WeatherData): (text: string)
    ensures |text| >= 2 && text[|text| - 1] == Degree
    ensures data.temp.Some? ==> text[..|text| - 1] == IntToString(data.temp.value.Floor)
    ensures data.temp.None? ==> text[..|text| - 1] == "NaN"
  {
    match data.temp
    case Some(t) => FormatTemperature(t)
    case None => "NaN" + [Degree]
  }

  /** After a success the panel shows the response: its first condition tag,
      its city name, and its temperature floored. */
  lemma SuccessShowsResponse(data: WeatherData, body: WeatherData)
    requires Classify(body.cod) == Success && !body.notFound
    requires body.weather.Some? && body.weather.value != [] && body.temp.Some?
    ensures var d := SettledData(data, Received(body)); var text := TemperatureText(d);
      && PanelFor(false, d) == WeatherPanel
      && WeatherCondition(d) == body.weather.value[0].main
      && (body.name.Some? && body.name.value != "" ==> LocationTitle(d) == body.name.value)
      && |text| >= 2 && text[|text| - 1] == Degree
      && text[..|text| - 1] == IntToString(body.temp.value.Floor)
  {
  }

  /** The location a search goes for: the given name if non-empty, else the
      typed text. */
  function SearchTarget(cityName: string, typed: string): (target: string)
    ensures cityName != "" ==> target == cityName
    ensures cityName == "" ==> target == typed
  {
    if cityName != "" then cityName else typed
  }

  /** The location Enter searches: the highlighted suggestion's name when a
      suggestion is highlighted (and the name is non-empty), else the typed text. */
  function EnterTarget(index: int, suggestions: seq<Suggestion>, typed: string): (target: string)
    ensures 0 <= index < |suggestions| && suggestions[index].name != "" ==> target == suggestions[index].name
    ensures !(0 <= index < |suggestions| && suggestions[index].name != "") ==> target == typed
  {
    if 0 <= index < |suggestions| then SearchTarget(suggestions[index].name, typed) else typed
  }

  class App {
    var location: string
    var selectedIndex: int
    var showSuggestions: bool
    const weather: WeatherHook
    const autocomplete: AutocompleteHook

    /** The component on first render. The weather fetch on mount is a
        lifecycle event and is left to the caller. */
    constructor (apiKey: string, formEncode: string -> string, uriEncode: string -> string)
      ensures location == "" && selectedIndex == -1 && !showSuggestions
      ensures fresh(weather) && fresh(autocomplete)
      ensures weather.apiKey == apiKey && weather.encode == formEncode
      ensures weather.data == EmptyData && !weather.loading && weather.error == Null
      ensures autocomplete.apiKey == apiKey && autocomplete.encode == uriEncode
      ensures autocomplete.suggestions == [] && !autocomplete.loading && autocomplete.searchTerm == ""
      ensures !ShowDropdown(showSuggestions, autocomplete.suggestions)
    {
      location := "";
      selectedIndex := -1;
      showSuggestions := false;
      weather := new WeatherHook(apiKey, formEncode);
      autocomplete := new AutocompleteHook(apiKey, uriEncode);
    }

    /** What a search for `target` does: a blank target changes nothing; any
        other one starts `fetchWeather(target)`, empties the box, closes and
        clears the suggestions and drops the highlight. */
    twostate predicate SearchedFor(target: string, new searched: Option<string>, new request: Option<string>)
      reads this, weather, autocomplete
    {
      if Trim(target) != "" then
        && searched == Some(target)
        && location == "" && !showSuggestions && selectedIndex == -1
        && autocomplete.suggestions == [] && autocomplete.searchTerm == ""
        && autocomplete.loading == old(autocomplete.loading)
        && weather.Started(target, request)
      else
        && searched == None && request == None
        && unchanged(weather, autocomplete)
    }

    /** `handleSearch` as the closure sees it: `typed` is the `location` of
        the render the handler belongs to. `searched` is what `fetchWeather`
        was called with, `request` the URL it requested. */
    method Search(cityName: string, typed: string) returns (searched: Option<string>, request: Option<string>)
      modifies this, weather, autocomplete
      ensures SearchedFor(SearchTarget(cityName, typed), searched, request)
      ensures searched.None? ==> location == old(location) && showSuggestions == old(showSuggestions)
                                 && selectedIndex == old(selectedIndex)
    {
      var target := SearchTarget(cityName, typed);
      if Trim(target) != "" {
        request := Launch(target);
        searched := Some(target);
      } else {
        searched, request := None, None;
      }
    }

    /** The body of `handleSearch` once the target is known to be non-blank:
        `fetchWeather(target)`, then the box, the dropdown, the suggestions and
        the highlight are reset. */
    method Launch(target: string) returns (request: Option<string>)
      modifies this, weather, autocomplete
      ensures location == "" && !showSuggestions && selectedIndex == -1
      ensures autocomplete.suggestions == [] && autocomplete.searchTerm == ""
      ensures autocomplete.loading == old(autocomplete.loading)
      ensures weather.Started(target, request)
      ensures !ShowDropdown(showSuggestions, autocomplete.suggestions)
    {
      request := weather.Start(target);
      location := "";
      showSuggestions := false;
      autocomplete.ClearSuggestions();
      selectedIndex := -1;
    }

    /** `handleSearch`, from the search icon (no name: `cityName` is ""). */
    method HandleSearch(cityName: string) returns (searched: Option<string>, request: Option<string>)
      modifies this, weather, autocomplete
      ensures SearchedFor(SearchTarget(cityName, old(location)), searched, request)
      ensures searched.None? ==> location == old(location) && showSuggestions == old(showSuggestions)
                                 && selectedIndex == old(selectedIndex)
    {
      searched, request := Search(cityName, location);
    }

    /** `handleInputChange`: the box takes the text, the autocomplete term
        follows it, the dropdown opens and the highlight is dropped. */
    method HandleInputChange(value: string)
      modifies this, autocomplete
      ensures location == value && showSuggestions && selectedIndex == -1
      ensures autocomplete.searchTerm == value
      ensures autocomplete.suggestions == old(autocomplete.suggestions)
      ensures autocomplete.loading == old(autocomplete.loading)
      ensures ShowDropdown(showSuggestions, autocomplete.suggestions) <==> |autocomplete.suggestions| > 0
    {
      location := value;
      autocomplete.UpdateSearchTerm(value);
      showSuggestions := true;
      selectedIndex := -1;
    }

    /** `handleSuggestionClick`: the box takes the name, then the search
        runs with the name (or, for an empty name, with the text typed before). */
    method HandleSuggestionClick(suggestion: Suggestion) returns (searched: Option<string>, request: Option<string>)
      modifies this, weather, autocomplete
      ensures SearchedFor(SearchTarget(suggestion.name, old(location)), searched, request)
      ensures searched.None? ==> location == suggestion.name && showSuggestions == old(showSuggestions)
                                 && selectedIndex == old(selectedIndex)
    {
      var typed := location;
      location := suggestion.name;
      searched, request := Search(suggestion.name, typed);
    }

    /** `handleKeyDown` on the search box. */
    method HandleKeyDown(key: Key) returns (searched: Option<string>, request: Option<string>)
      modifies this, weather, autocomplete
      ensures key == Enter ==>
        SearchedFor(EnterTarget(old(selectedIndex), old(autocomplete.suggestions), old(location)), searched, request)
      ensures key == Enter && searched.None? ==>
        && location == (if 0 <= old(selectedIndex) < |old(autocomplete.suggestions)|
                        then old(autocomplete.suggestions)[old(selectedIndex)].name else old(location))
        && showSuggestions == old(showSuggestions) && selectedIndex == old(selectedIndex)
      ensures key != Enter ==> searched.None? && request.None? && unchanged(weather, autocomplete)
                               && location == old(location)
      ensures key == ArrowDown ==>
        selectedIndex == NextIndex(old(selectedIndex), |autocomplete.suggestions|) && showSuggestions == old(showSuggestions)
      ensures key == ArrowUp ==>
        selectedIndex == PrevIndex(old(selectedIndex)) && showSuggestions == old(showSuggestions)
      ensures key == Escape ==> !showSuggestions && selectedIndex == -1
      ensures key == Escape ==> !ShowDropdown(showSuggestions, autocomplete.suggestions)
      ensures key == OtherKey ==> unchanged(this)
      ensures InRange(old(selectedIndex), |old(autocomplete.suggestions)|) ==>
        InRange(selectedIndex, |autocomplete.suggestions|)
    {
      searched, request := None, None;
      match key {
        case Enter =>
          if selectedIndex >= 0 && selectedIndex < |autocomplete.suggestions| {
            searched, request := HandleSuggestionClick(autocomplete.suggestions[selectedIndex]);
          } else {
            searched, request := Search("", location);
          }
        case ArrowDown =>
          selectedIndex := NextIndex(selectedIndex, |autocomplete.suggestions|);
        case ArrowUp =>
          selectedIndex := PrevIndex(selectedIndex);
        case Escape =>
          showSuggestions := false;
          selectedIndex := -1;
        case OtherKey =>
      }
    }

    /** The input's focus handler: text of two code units or more reopens
        the dropdown. */
    method HandleFocus()
      modifies this
      ensures showSuggestions == (old(showSuggestions) || Utf16Length(location) >= 2)
      ensures location == old(location) && selectedIndex == old(selectedIndex)
    {
      if Utf16Length(location) >= 2 {
        showSuggestions := true;
      }
    }

    /** Hovering a suggestion highlights it. */
    method HandleMouseEnter(index: nat)
      requires index < |autocomplete.suggestions|
      modifies this
      ensures selectedIndex == index && InRange(selectedIndex, |autocomplete.suggestions|)
      ensures location == old(location) && showSuggestions == old(showSuggestions)
    {
      selectedIndex := index;
    }

    /** A mousedown outside both the box and the dropdown. The listener only
        acts while the dropdown is drawn (its ref is set only then): it then
        closes the dropdown. With the flag on but no suggestions yet, the flag
        stays on, so the dropdown opens once suggestions arrive. */
    method HandleClickOutside()
      modifies this
      ensures showSuggestions == (old(showSuggestions) && |autocomplete.suggestions| == 0)
      ensures !ShowDropdown(showSuggestions, autocomplete.suggestions)
      ensures location == old(location) && selectedIndex == old(selectedIndex)
    {
      if ShowDropdown(showSuggestions, autocomplete.suggestions) {
        showSuggestions := false;
      }
    }
  }
}
