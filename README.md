# Weather widget: search box, weather and autocomplete hooks, helpers

A Dafny model of the logic beneath a small React weather widget. A user types a city. A geocoding
service suggests matching places. The widget fetches the current weather for the chosen place and
shows it on a background picked by the weather condition.

The model covers five parts:

- The search box state machine (`WeatherApp.App`). Its fields are the typed text `location`, the
  highlighted suggestion `selectedIndex` (-1 for none) and the dropdown flag `showSuggestions`.
  Its handlers cover typing, Enter, the arrow keys, Escape, focus, hover, clicking a suggestion,
  clicking outside, and the search icon.
- The pure choices the render makes: the condition image and background, which result panel
  shows, whether the dropdown shows, and the title line.
- The weather hook (`UseWeather.WeatherHook`): the guards of `fetchWeather`, the classification of
  the response's `cod` field, and the updates of `data`, `error` and `loading`.
- The autocomplete hook (`UseCityAutocomplete.AutocompleteHook`): the length and key guards, the
  mapping of geocoding entries to suggestion records with their display names, and
  `updateSearchTerm` / `clearSuggestions`.
- The helpers and the static tables: location validation, the "to right" → "to top" swap,
  the date line, the temperature text, the request URLs, and the condition, weekday and month
  tables.

Network answers are inputs. A weather request yields `Received(body)` or `TransportFailure`. A
geocoding request yields `GeoArray(items)`, `GeoNotArray` or `GeoFailure`. Each async hook function
is split at its `await`:

- `Start` holds the guards and issues the request. It returns the URL requested.
- `Settle` / `Complete` applies the answer and the `finally`.
- `FetchWeather` / `FetchSuggestions` run the two back to back.

The URL encoders (`URLSearchParams`, `encodeURIComponent`) are function parameters of the hooks.
A missing API key is the empty string; both are falsy in the source. JavaScript values that the
code tests for truthiness are `Js.JsValue`. String lengths compared in the source are UTF-16 code
units (`Js.Utf16Length`).

Behaviour worth knowing, as the code has it:

- A condition tag outside the nine known ones gives no image and an *undefined* background. The
  default gradient is used only when there is no condition at all.
- After a 401, another error code or a transport failure, `data` keeps the previous result. The
  previous panel stays on screen under the error message. Only a string `"404"` replaces it, with
  the not-found marker. A numeric 404 is a generic error.
- A settled request does not check whether a later request was started meanwhile. The last answer
  to arrive is applied.
- While the weather is loading the text input is disabled. The search icon is not, but every path
  that turns `loading` on leaves the box empty: the mount fetch runs before anything is typed, and
  a search empties the box. The icon's `handleSearch()` then finds a blank target and starts
  nothing.
- A click outside closes the dropdown only while it is drawn. With the box open but no suggestions
  yet, the flag stays on and the dropdown appears when the suggestions arrive.
- The focus handler reopens the dropdown on text length alone. The dropdown is still drawn only
  when the suggestion list is non-empty.
- A handler reads the state of the render it belongs to. Clicking a suggestion whose name is
  empty therefore searches the text typed before. Clicking one whose name is blank searches
  nothing and leaves that name in the box.
- Suggestions that arrive later do not reset `selectedIndex`. Only the handlers keep it within
  the list. Enter checks that a suggestion exists at the index before using it.

## Model

| member | source | states |
|---|---|---|
| Js.Truthy | src/utils/helpers.js:49 | ToBoolean: falsy exactly for undefined, null, false, 0 and "" |
| Js.TruthyStrings | src/utils/helpers.js:49 | a string is truthy iff it is non-empty; undefined and null are falsy, objects truthy |
| Js.Utf16Length | src/hooks/useCityAutocomplete.js:20 | `.length` counts UTF-16 code units: between the character count and twice it, zero only for "" |
| Js.Utf16LengthAtLeastTwo | src/hooks/useCityAutocomplete.js:20 | a term is under two code units iff it is empty or one BMP character |
| Strings.TrimStart | src/utils/helpers.js:40 | the result is a suffix of the input, everything removed is whitespace, and it does not start with whitespace |
| Strings.TrimEnd | src/utils/helpers.js:40 | the result is a prefix of the input, everything removed is whitespace, and it does not end with whitespace |
| Strings.Trim | src/utils/helpers.js:40 | a non-empty trimmed text neither starts nor ends with whitespace |
| Strings.TrimEmptyIff | src/utils/helpers.js:40 | the trimmed text is empty iff every character is whitespace |
| Strings.FindFirst | src/utils/helpers.js:50 | the index found is an occurrence with no occurrence before it; none is found iff there is no occurrence |
| Strings.ShiftOccurrence | src/utils/helpers.js:50 | occurrences in the tail are the occurrences of the whole one index further on |
| Strings.ReplaceFirst | src/utils/helpers.js:50 | a text without the pattern is returned unchanged; otherwise the length changes by the replacement's difference |
| Strings.ReplaceFirstAtSplit | src/utils/helpers.js:50 | splitting the text at its first occurrence determines the result: prefix, replacement, untouched rest |
| Strings.Join | src/hooks/useCityAutocomplete.js:48-54 | joining nothing gives "", joining one part gives that part |
| Strings.JoinLength | src/hooks/useCityAutocomplete.js:48-54 | the joined text is the parts plus one separator between neighbours |
| Strings.KeepNonEmpty | src/hooks/useCityAutocomplete.js:53 | the result holds only non-empty parts, exactly the non-empty values of the input, and an input without empty parts is returned whole |
| Strings.KeepNonEmptyCounts | src/hooks/useCityAutocomplete.js:53 | every non-empty part is kept as often as it occurs, and no empty part is kept |
| Strings.KeepNonEmptyAppend | src/hooks/useCityAutocomplete.js:53 | filtering keeps the order: filtering a concatenation gives the filtered halves, concatenated |
| Strings.NatToString | src/utils/helpers.js:13 | decimal digits only, with no leading zero |
| Strings.IntToString | src/utils/helpers.js:59 | the text starts with '-' iff the integer is negative |
| Strings.NatRoundTrip | src/utils/helpers.js:13 | reading the digits back gives the number |
| Strings.IntRoundTrip | src/utils/helpers.js:59 | reading the text back gives the integer |
| Strings.IntToStringInjective | src/utils/helpers.js:59 | different integers get different texts |
| Strings.Split | src/utils/helpers.js:31 | the reader-side inverse of the parameter join, used to state the URL round trip: a text without the separator splits into itself |
| Strings.SplitAfterField | src/utils/helpers.js:31 | (reader side of the URL round trip) a separator-free field followed by the separator splits off as the first piece |
| Strings.SplitJoin | src/utils/helpers.js:31 | (reader side of the URL round trip) splitting undoes joining when no part holds the separator |
| WeatherConstants.TablesShareKeys | src/constants/weather.js:6-28 | the image table and the gradient table are keyed by exactly the nine condition tags |
| WeatherConstants.NameTables | src/constants/weather.js:33-48 | 7 weekday names starting with "Sun", 12 month names starting with "Jan", all three letters |
| WeatherConstants.DefaultIsClear | src/constants/weather.js:18-31 | the default gradient is the Clear gradient |
| WeatherConstants.ToRightGradientParts | src/constants/weather.js:18-31 | a table gradient is "linear-gradient(" + "to right" + the rest |
| WeatherConstants.AllGradientsToRight | src/constants/weather.js:18-31 | every table gradient and the default gradient begin with "linear-gradient(to right" |
| Helpers.IsValidLocation | src/utils/helpers.js:39-41 | valid iff the value is a string holding a non-whitespace character |
| Helpers.DefaultLocationIsValid | src/constants/weather.js:30 | the location fetched on mount passes validation |
| Helpers.ReverseGradientDirection | src/utils/helpers.js:48-51 | falsy or non-string values come back as they are; a string changes iff it contains "to right" |
| Helpers.ReverseToRightGradient | src/utils/helpers.js:50 | on a table gradient only the direction changes: "linear-gradient(to top" + the same rest |
| Helpers.TableGradientsAreReversed | src/Components/WeatherApp.jsx:110-115 | every table gradient and the default are changed for the inner panel |
| Helpers.ReverseGradientExample | src/utils/helpers.js:48-51 | "linear-gradient(to right, #fff, #000)" becomes "linear-gradient(to top, #fff, #000)" |
| Helpers.ReverseGradientAbsent | src/utils/helpers.js:49 | null and undefined come back unchanged |
| Helpers.FormatDate | src/utils/helpers.js:8-14 | weekday name, ", ", the day of month, " ", month name; each field sits where it can be read back |
| Helpers.FormatDateInjective | src/utils/helpers.js:8-14 | different (weekday, day, month) give different date lines |
| Helpers.FormatDateExample | src/utils/helpers.js:6 | Monday the 15th of January is "Mon, 15 Jan" |
| Helpers.FormatTemperature | src/utils/helpers.js:58-60 | the integer text of the floor, then a degree sign; that integer n has n ≤ temp < n + 1 |
| Helpers.FormatTemperatureReadsBack | src/utils/helpers.js:58-60 | the text before the degree sign reads back as the floor of the temperature |
| Helpers.FormatTemperatureExamples | src/utils/helpers.js:58-60 | 23.9 → "23°", 0.5 → "0°", -0.5 → "-1°", -1.2 → "-2°" (floor, not truncation) |
| Helpers.BuildWeatherApiUrl | src/utils/helpers.js:23-31 | the endpoint, then "?q=", the encoded location, "&units=", the encoded units, "&appid=", the encoded key |
| Helpers.WeatherUrlParameters | src/utils/helpers.js:23-31 | the URL is the endpoint and "?", then parameters q, units, appid in that order |
| Helpers.DefaultUnitsAreMetric | src/utils/helpers.js:23 | without a unit argument the request asks for "Metric" |
| UseWeather.NotFoundMessage | src/hooks/useWeather.js:43 | `Location "`, the location, `" not found. Please try another location.`; the location reads back at a fixed offset |
| UseWeather.Classify | src/hooks/useWeather.js:39-49 | success iff cod is the number 200, not found iff the string "404", bad key iff the number 401 |
| UseWeather.ClassifyIsStrict | src/hooks/useWeather.js:39-47 | a numeric 404 and the strings "200" and "401" are generic errors |
| UseWeather.SettledError | src/hooks/useWeather.js:39-52 | null iff success; after "404" exactly the not-found message, which names the location; every other branch leaves a truthy (displayed) error; fixed texts for a bad key and a network failure |
| UseWeather.OtherErrorMessage | src/hooks/useWeather.js:47-48 | a generic error shows the server's message if truthy, else "Failed to fetch weather data" |
| UseWeather.SettledData | src/hooks/useWeather.js:39-49 | replaced wholesale by the body on success, by exactly `{notFound: true}` on "404" (old name and conditions dropped), unchanged otherwise |
| UseWeather.WeatherHook.constructor | src/hooks/useWeather.js:11-13 | data `{}`, not loading, no error |
| UseWeather.WeatherHook.Start | src/hooks/useWeather.js:20-36 | invalid location or missing key: only the error is set, no request; otherwise the request URL is issued with loading on and the error cleared; data never touched |
| UseWeather.WeatherHook.Settle | src/hooks/useWeather.js:37-55 | data and error become the settled values and loading is off on every branch |
| UseWeather.WeatherHook.FetchWeather | src/hooks/useWeather.js:19-58 | a request is made iff the location is valid and the key present; then data and error are the settled values and loading is off |
| UseCityAutocomplete.StateText | src/hooks/useCityAutocomplete.js:43 | a missing state becomes "" |
| UseCityAutocomplete.DisplayName | src/hooks/useCityAutocomplete.js:48-54 | the non-empty ones of name, state, country in that order, ", "-separated, written out for all eight cases; "" iff all are empty |
| UseCityAutocomplete.KeepThree | src/hooks/useCityAutocomplete.js:53 | filtering keeps each non-empty one of the three parts in place |
| UseCityAutocomplete.ToSuggestion | src/hooks/useCityAutocomplete.js:41-55 | the record carries the item's name, country, lat and lon, the state or "", and the display name |
| UseCityAutocomplete.FormatSuggestions | src/hooks/useCityAutocomplete.js:41-55 | one record per item, same length, same order |
| UseCityAutocomplete.SettledSuggestions | src/hooks/useCityAutocomplete.js:39-63 | an array gives one record per item, in order, each exactly `ToSuggestion` of its item; a non-array or a failure gives [] |
| UseCityAutocomplete.GeocodingRequestUrl | src/hooks/useCityAutocomplete.js:32-34 | the endpoint, then "?q=", the encoded term, "&limit=5&appid=", the key as it is |
| UseCityAutocomplete.GeocodingUrlParameters | src/hooks/useCityAutocomplete.js:32-34 | when neither the encoded term nor the (unencoded) key holds "&", the query splits back into q, limit=5 and appid, in that order |
| UseCityAutocomplete.AutocompleteHook.constructor | src/hooks/useCityAutocomplete.js:10-12 | no suggestions, not loading, empty term |
| UseCityAutocomplete.AutocompleteHook.UpdateSearchTerm | src/hooks/useCityAutocomplete.js:76-78 | only the term changes |
| UseCityAutocomplete.AutocompleteHook.ClearSuggestions | src/hooks/useCityAutocomplete.js:83-86 | list and term emptied, loading untouched |
| UseCityAutocomplete.AutocompleteHook.Start | src/hooks/useCityAutocomplete.js:18-36 | under two code units: list emptied, no request, loading untouched; no key: nothing changes; otherwise the geocoding URL is requested with loading on |
| UseCityAutocomplete.AutocompleteHook.Complete | src/hooks/useCityAutocomplete.js:37-66 | the list becomes the settled suggestions and loading is off |
| UseCityAutocomplete.AutocompleteHook.FetchSuggestions | src/hooks/useCityAutocomplete.js:18-67 | the guards as in Start; after a request the list is the settled suggestions and loading is off |
| WeatherApp.NextIndex | src/Components/WeatherApp.jsx:86-88 | ArrowDown moves one step iff below the last index, else stays; a highlight in [-1, count-1] stays there |
| WeatherApp.PrevIndex | src/Components/WeatherApp.jsx:91 | ArrowUp moves one step up from a positive index, else to -1 |
| WeatherApp.PressDownClamps | src/Components/WeatherApp.jsx:84-88 | k ArrowDowns from a highlight in range end at min(index + k, count - 1): clamped, no wrap |
| WeatherApp.PressUpClamps | src/Components/WeatherApp.jsx:89-91 | k ArrowUps end at max(index - k, -1): clamped, no wrap |
| WeatherApp.KeyboardExample | src/Components/WeatherApp.jsx:84-91 | with 3 suggestions five ArrowDowns from -1 end at 2; one ArrowUp from 2 gives 1 |
| WeatherApp.WeatherCondition | src/Components/WeatherApp.jsx:99 | the first entry's `main` when `weather` is a non-empty list, else none |
| WeatherApp.WeatherImage | src/Components/WeatherApp.jsx:100-102 | an image exactly for a truthy tag among the nine, and then the table's image |
| WeatherApp.Background | src/Components/WeatherApp.jsx:103-105 | the default gradient without a condition; for a tag, the table's gradient iff the tag is one of the nine, else none; any background is a "to right" gradient |
| WeatherApp.InnerBackgroundTurned | src/Components/WeatherApp.jsx:110-115 | the inner panel gets the outer gradient with "to right" turned into "to top" and the rest kept, so it always differs; no background stays undefined |
| WeatherApp.PanelFor | src/Components/WeatherApp.jsx:202-250 | the loader iff loading; else the not-found placeholder iff marked; else the weather panel iff `weather` present |
| WeatherApp.ShowDropdown | src/Components/WeatherApp.jsx:155 | the dropdown shows iff it is open and the list is non-empty; the handlers below state their effect on it |
| WeatherApp.LocationTitle | src/Components/WeatherApp.jsx:122 | the city name when present and non-empty, else "Search for a location" |
| WeatherApp.SettledView | src/Components/WeatherApp.jsx:99-208 | after "404" the placeholder and an error show, the title falls back, no image and the default background; after success the weather and no error; otherwise the old panel stays under an error |
| WeatherApp.SuccessShowsResponse | src/Components/WeatherApp.jsx:208-217 | after a success the panel shows the first condition tag, the city name and the floored temperature |
| WeatherApp.TemperatureText | src/Components/WeatherApp.jsx:217 | the floored temperature's integer text, or "NaN" when there is none, then the degree sign |
| WeatherApp.SearchTarget | src/Components/WeatherApp.jsx:62 | the name when non-empty, else the typed text (the closure's `location`) |
| WeatherApp.EnterTarget | src/Components/WeatherApp.jsx:79-83 | the highlighted suggestion's name when one exists there and its name is non-empty, else the typed text |
| WeatherApp.App.constructor | src/Components/WeatherApp.jsx:17-32 | empty box, no highlight, dropdown closed and not shown; fresh hooks sharing the key, each with its encoder, not loading, with `{}` data, no error, no suggestions and an empty term |
| WeatherApp.App.Search | src/Components/WeatherApp.jsx:61-70 | name if non-empty else typed text; a blank target changes nothing; otherwise one fetchWeather start, box emptied, dropdown closed and cleared, highlight -1 |
| WeatherApp.App.Launch | src/Components/WeatherApp.jsx:64-68 | a non-blank search starts fetchWeather for the target and resets box, dropdown (no longer shown), highlight and suggestions, leaving the suggestion loading flag alone |
| WeatherApp.App.HandleSearch | src/Components/WeatherApp.jsx:61-70 | the search with the current text as the closure's `location` |
| WeatherApp.App.HandleInputChange | src/Components/WeatherApp.jsx:53-59 | box and search term take the value, dropdown opens (shown iff there are suggestions), highlight -1, suggestions untouched |
| WeatherApp.App.HandleSuggestionClick | src/Components/WeatherApp.jsx:72-75 | searches the name (the earlier text for an empty name); the box ends "" after a search, else holds the name |
| WeatherApp.App.HandleKeyDown | src/Components/WeatherApp.jsx:77-96 | Enter searches the highlighted suggestion if one exists there, else the text; arrows move by the updaters; Escape hides the dropdown and drops the highlight without touching text or list; a highlight in range stays in range |
| WeatherApp.App.HandleFocus | src/Components/WeatherApp.jsx:133 | the dropdown opens iff the text has two code units or more |
| WeatherApp.App.HandleMouseEnter | src/Components/WeatherApp.jsx:171 | hovering a suggestion highlights it |
| WeatherApp.App.HandleClickOutside | src/Components/WeatherApp.jsx:35-45 | the listener acts only while the dropdown is drawn: the flag stays on only if it was on with no suggestions yet, the dropdown is not shown afterwards, and text and highlight stay |

## Left out

- `fetch`, `response.json()` and the endpoints. Their results are the input datatypes `FetchResult` and `GeoResult`.
- The debounce hook and its timers. Its file is not part of this model, and its behaviour is timing. `AutocompleteHook.Start` takes the debounced term as an argument.
- React scheduling: `useState` batching beyond "a handler reads its render's state", effect re-runs, and the fetch on mount. The mount fetch is a lifecycle event; `Helpers.DefaultLocationIsValid` shows that it passes validation.
- Interleaving of requests in flight. `Start` and `Settle` / `Complete` can be called in any order, as the source allows. No staleness check is claimed, because the source has none.
- The DOM: the `mousedown` listener's test that the click target lies outside the box and the dropdown (`HandleClickOutside` is the event of a click that passed it; the dropdown-drawn condition is modelled), the JSX markup, aria attributes, styles, `preventDefault`, the `disabled` attribute, and the image assets (they are the four `Image` values).
- The percent-encoding of `URLSearchParams` and `encodeURIComponent`. These are the `encode` parameters. `WeatherUrlParameters` assumes that the three encoded values hold no '&'. `GeocodingUrlParameters` assumes this of the encoded term and of the API key, which the geocoding URL inserts unencoded.
- `Date.getDay/getMonth/getDate`. `FormatDate` takes the three calendar fields as integers.
- IEEE floating point: temperatures are mathematical reals, so NaN, infinities and -0 are not modelled. A missing temperature is rendered as "NaN°" by `TemperatureText`.
- JavaScript property lookup on the tables' prototype (a tag such as "toString"). Only own keys are modelled.
- `JsValue` has no arrays or objects inside. The fields the code reads are typed record fields. The geocoding fields `name` and `country` are strings ("" stands for an absent one, which `filter(Boolean)` treats alike).
- Humidity and wind speed are carried in `WeatherData` but only printed verbatim, so no property is stated about them.
- `console.error` logging and the hard-coded fallback API key. The component receives the resolved key.
- `String.prototype.replace` interprets `$` patterns in the replacement. The only replacement used, "to top", has none, so `ReplaceFirst` inserts it literally.
- The `disabled={loading}` attribute of the input. The handlers `HandleInputChange`, `HandleKeyDown` and `HandleFocus`, and `WeatherHook.Start`, may be called while the weather is loading. The model allows more event sequences than the page does; every contract holds for all of them.
