/**
 * The city autocomplete hook: the state `suggestions`, `loading` and
 * `searchTerm`, the request for a (debounced) search term, the mapping of the
 * geocoding answer to suggestion records, `updateSearchTerm` and
 * `clearSuggestions`.
 *
 * As for the weather hook, `fetchSuggestions` is split at its `await`: `Start`
 * holds the guards and issues the request, `Complete` applies the answer and
 * the `finally`.
 */
module UseCityAutocomplete {
  import opened Js
  import opened Strings
  import opened WeatherConstants

  /** One entry of the geocoding answer; `state` may be absent. */
  datatype GeoItem = GeoItem(name: string, state: Option<string>, country: string, lat: real, lon: real)

  /** A suggestion record as the dropdown shows it. */
  datatype Suggestion = Suggestion(name: string, state: string, country: string, lat: real, lon: real, displayName: string)

  /** What the request produced: a parsed array, a parsed value that is not
      an array, or a thrown error. */
  datatype GeoResult = GeoArray(items: seq<GeoItem>) | GeoNotArray | GeoFailure

  /** `item.state || ''` */
  function StateText(state: Option<string>): (s: string)
    ensures state.None? ==> s == ""
    ensures state.Some? ==> s == state.value
  {
    match state
    case None => ""
    case Some(s) => s
  }

  /** `[name, state, country].filter(Boolean).join(', ')`: the non-empty parts,
      in that order, separated by ", "; case by case. */
  function DisplayName(name: string, state: Option<string>, country: string): (d: string)
    ensures var s := StateText(state);
      && (d == "" <==> name == "" && s == "" && country == "")
      && (name != "" && s != "" && country != "" ==> d == name + ", " + s + ", " + country)
      && (name != "" && s == "" && country != "" ==> d == name + ", " + country)
      && (name != "" && s != "" && country == "" ==> d == name + ", " + s)
      && (name == "" && s != "" && country != "" ==> d == s + ", " + country)
      && (name != "" && s == "" && country == "" ==> d == name)
      && (name == "" && s != "" && country == "" ==> d == s)
      && (name == "" && s == "" && country != "" ==> d == country)
  {
    var s := StateText(state);
    KeepThree(name, s, country);
    JoinSmall(name, s, country, ", ");
    JoinSmall(name, country, "", ", ");
    JoinSmall(s, country, "", ", ");
    Join(KeepNonEmpty([name, s, country]), ", ")
  }

  /** Filtering a three-element list keeps each non-empty element in place. */
  lemma KeepThree(a: string, b: string, c: string)
    ensures KeepNonEmpty([a, b, c])
      == (if a == "" then [] else [a]) + (if b == "" then [] else [b]) + (if c == "" then [] else [c])
  {
    assert [a][1..] == [] && [b][1..] == [] && [c][1..] == [];
    assert [a, b, c] == [a] + ([b] + [c]);
    KeepNonEmptyAppend([b], [c]);
    KeepNonEmptyAppend([a], [b] + [c]);
  }

  function ToSuggestion(item: GeoItem): (s: Suggestion)
    ensures s.name == item.name && s.country == item.country
    ensures s.lat == item.lat && s.lon == item.lon
    ensures s.state == StateText(item.state)
    ensures s.displayName == DisplayName(item.name, item.state, item.country)
  {
    Suggestion(item.name, StateText(item.state), item.country, item.lat, item.lon,
               DisplayName(item.name, item.state, item.country))
  }

  /** `data.map(...)`: one record per item, in the same order. */
  function FormatSuggestions(items: seq<GeoItem>): (r: seq<Suggestion>)
    ensures |r| == |items|
    ensures forall k :: 0 <= k < |items| ==> r[k] == ToSuggestion(items[k])
  {
    if items == [] then [] else [ToSuggestion(items[0])] + FormatSuggestions(items[1..])
  }

  /** The list a settled request leaves: the mapped records for an array,
      an empty list for anything else, failures included. */
  function SettledSuggestions(result: GeoResult): (r: seq<Suggestion>)
    ensures !result.GeoArray? ==> r == []
    ensures result.GeoArray? ==> |r| == |result.items|
    ensures result.GeoArray? ==> forall k :: 0 <= k < |r| ==> r[k] == ToSuggestion(result.items[k])
  {
    match result
    case GeoArray(items) => FormatSuggestions(items)
    case _ => []
  }

  /** The request URL: `q` (URI-component encoded), `limit=5` and the key
      (not encoded), joined by "&". */
  function GeocodingRequestUrl(term: string, apiKey: string, encode: string -> string): (url: string)
    ensures url == GeocodingUrl + "?" + "q=" + encode(term) + "&" + "limit=5" + "&" + "appid=" + apiKey
  {
    var e := encode(term);
    JoinSmall("q=" + e, "limit=5", "appid=" + apiKey, "&");
    GeocodingUrl + "?" + Join(["q=" + e, "limit=5", "appid=" + apiKey], "&")
  }

  /** When neither the encoded term nor the key holds '&', the query splits
      back into the three parameters, in order. */
  lemma GeocodingUrlParameters(term: string, apiKey: string, encode: string -> string)
    requires '&' !in encode(term) && '&' !in apiKey
    ensures var url := GeocodingRequestUrl(term, apiKey, encode);
      && url[..|GeocodingUrl| + 1] == GeocodingUrl + "?"
      && Split(url[|GeocodingUrl| + 1..], '&') == ["q=" + encode(term), "limit=5", "appid=" + apiKey]
  {
    var params := ["q=" + encode(term), "limit=5", "appid=" + apiKey];
    forall k | 0 <= k < |params| ensures '&' !in params[k] {
      if k == 0 {
        assert params[k] == "q=" + encode(term);
      } else if k == 2 {
        assert params[k] == "appid=" + apiKey;
      }
    }
    SplitJoin(params, '&');
    var prefix := GeocodingUrl + "?";
    var url := prefix + Join(params, "&");
    assert url[..|prefix|] == prefix;
    assert url[|prefix|..] == Join(params, "&");
  }

  class AutocompleteHook {
    /** The key the hook was created with; "" stands for a missing key. */
    const apiKey: string
    /** `encodeURIComponent` */
    const encode: string -> string

    var suggestions: seq<Suggestion>
    var loading: bool
    var searchTerm: string

    constructor (apiKey: string, encode: string -> string)
      ensures this.apiKey == apiKey && this.encode == encode
      ensures suggestions == [] && !loading && searchTerm == ""
    {
      this.apiKey := apiKey;
      this.encode := encode;
      suggestions := [];
      loading := false;
      searchTerm := "";
    }

    /** `updateSearchTerm` */
    method UpdateSearchTerm(term: string)
      modifies this
      ensures searchTerm == term
      ensures suggestions == old(suggestions) && loading == old(loading)
    {
      searchTerm := term;
    }

    /** `clearSuggestions`: empties the list and the search term. */
    method ClearSuggestions()
      modifies this
      ensures suggestions == [] && searchTerm == ""
      ensures loading == old(loading)
    {
      suggestions := [];
      searchTerm := "";
    }

    /** The guards and the request for a debounced term: a term shorter than
        two code units empties the list without a request; a missing key does
        nothing at all; otherwise the request goes out with `loading` on. */
    method Start(term: string) returns (request: Option<string>)
      modifies this
      ensures request.Some? <==> Utf16Length(term) >= AutocompleteMinChars && apiKey != ""
      ensures request.Some? ==> request.value == GeocodingRequestUrl(term, apiKey, encode)
      ensures Utf16Length(term) < AutocompleteMinChars ==> suggestions == [] && loading == old(loading)
      ensures Utf16Length(term) >= AutocompleteMinChars && apiKey == "" ==>
        suggestions == old(suggestions) && loading == old(loading)
      ensures request.Some? ==> suggestions == old(suggestions) && loading
      ensures searchTerm == old(searchTerm)
    {
      if term == "" || Utf16Length(term) < 2 {
        suggestions := [];
        return None;
      }
      if apiKey == "" {
        return None;
      }
      loading := true;
      request := Some(GeocodingRequestUrl(term, apiKey, encode));
    }

    /** The continuation after `await`, with the `finally`. */
    method Complete(result: GeoResult)
      modifies this
      ensures suggestions == SettledSuggestions(result)
      ensures !loading && searchTerm == old(searchTerm)
    {
      match result {
        case GeoArray(items) =>
          suggestions := FormatSuggestions(items);
        case _ =>
          suggestions := [];
      }
      loading := false;
    }

    /** `fetchSuggestions` when nothing else happens while the request is out. */
    method FetchSuggestions(term: string, result: GeoResult) returns (request: Option<string>)
      modifies this
      ensures request.Some? <==> Utf16Length(term) >= AutocompleteMinChars && apiKey != ""
      ensures request.Some? ==> suggestions == SettledSuggestions(result) && !loading
      ensures Utf16Length(term) < AutocompleteMinChars ==> suggestions == [] && loading == old(loading)
      ensures request.None? && Utf16Length(term) >= AutocompleteMinChars ==>
        suggestions == old(suggestions) && loading == old(loading)
      ensures searchTerm == old(searchTerm)
    {
      request := Start(term);
      if request.Some? {
        Complete(result);
      }
    }
  }
}
