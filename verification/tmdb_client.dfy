/**
 * The pure parts of the movie-database client (clients/tmdb_client.py):
 * the request URL with its fixed key and language parameters, the extra
 * query parameters, image URLs, and the shaping of the search and credits
 * responses.  The HTTP request itself is not part of this model: the
 * decoded JSON response is given, and a request that fails is the same
 * `None` as a response the shaping code cannot read.
 */
module TmdbClient {
  import opened Wrappers
  import opened Text
  import opened Subseq
  import opened Json

  // ---------------------------------------------------------------------
  // Request URL

  const ApiKeyParam := "api_key="
  const LanguageParam := "&language=zh-CN"

  /** `_build_url`: the joined path, `?` or (when the path already holds a
      query) `&`, the API key, and the fixed language. */
  function BuildUrl(baseUrl: string, endpoint: string, apiKey: string): string {
    var path := JoinPath(baseUrl, endpoint);
    path + [if '?' in path then '&' else '?'] + (ApiKeyParam + apiKey + LanguageParam)
  }

  /** Every URL is the joined path, one query mark (`&` exactly when the
      path already holds a `?`), and ends with the language parameter. */
  lemma BuildUrlShape(baseUrl: string, endpoint: string, apiKey: string)
    ensures var url, n := BuildUrl(baseUrl, endpoint, apiKey), |JoinPath(baseUrl, endpoint)|;
      IsSuffix(LanguageParam, url)
      && n < |url| && url[..n] == JoinPath(baseUrl, endpoint)
      && url[n] == (if '?' in url[..n] then '&' else '?')
  {
    var path := JoinPath(baseUrl, endpoint);
    var mark := if '?' in path then '&' else '?';
    MarkedShape(path, mark, ApiKeyParam + apiKey, LanguageParam);
    assert BuildUrl(baseUrl, endpoint, apiKey) == path + [mark] + (ApiKeyParam + apiKey + LanguageParam);
  }

  /** Where the pieces of a marked URL sit. */
  lemma MarkedShape(path: string, mark: char, key: string, tail: string)
    ensures var url := path + [mark] + (key + tail);
      IsSuffix(tail, url) && |path| < |url| && url[..|path|] == path && url[|path|] == mark
  {
    var url := path + [mark] + (key + tail);
    assert url[..|path|] == path;
    assert url[|url| - |tail|..] == tail;
  }

  /** With no slash at the joint and no query anywhere, the URL is the base,
      one slash, the endpoint, `?api_key=` and the language. */
  lemma BuildUrlPlain(baseUrl: string, endpoint: string, apiKey: string)
    requires baseUrl == [] || baseUrl[|baseUrl| - 1] != '/'
    requires endpoint == [] || endpoint[0] != '/'
    requires '?' !in baseUrl && '?' !in endpoint
    ensures BuildUrl(baseUrl, endpoint, apiKey)
         == baseUrl + ['/'] + endpoint + ['?'] + (ApiKeyParam + apiKey + LanguageParam)
  {
    JoinPathPlain(baseUrl, endpoint);
    NoQueryMark(baseUrl, endpoint);
  }

  // ---------------------------------------------------------------------
  // Extra query parameters

  /** `[f"{k}={v}" for k, v in params.items()]`, with the values already
      formatted as text. */
  function ParamPairs(params: seq<(string, string)>): (r: seq<string>)
    ensures |r| == |params|
    ensures forall i :: 0 <= i < |r| ==> r[i] == params[i].0 + ['='] + params[i].1
  {
    if params == [] then [] else [params[0].0 + ['='] + params[0].1] + ParamPairs(params[1..])
  }

  /** The URL of `_make_request`: the parameters joined with `&` after one
      more `&`; an empty dict adds nothing. */
  function WithParams(url: string, params: seq<(string, string)>): string {
    if params == [] then url else url + ['&'] + Join(ParamPairs(params), ['&'])
  }

  /** Each parameter in turn as `&key=value`. */
  function ParamSuffix(params: seq<(string, string)>): string {
    if params == [] then "" else ['&'] + params[0].0 + ['='] + params[0].1 + ParamSuffix(params[1..])
  }

  lemma {:induction false} JoinedParams(params: seq<(string, string)>)
    requires params != []
    ensures ['&'] + Join(ParamPairs(params), ['&']) == ParamSuffix(params)
    decreases |params|
  {
    var pairs := ParamPairs(params);
    if |params| > 1 {
      JoinedParams(params[1..]);
      assert pairs[1..] == ParamPairs(params[1..]);
    } else {
      assert ParamSuffix(params[1..]) == "";
    }
  }

  /** The parameters follow the URL as `&key=value`, one after another in
      dict order, without any escaping. */
  lemma WithParamsAppends(url: string, params: seq<(string, string)>)
    ensures WithParams(url, params) == url + ParamSuffix(params)
  {
    if params != [] {
      JoinedParams(params);
      assert url + ['&'] + Join(ParamPairs(params), ['&']) == url + (['&'] + Join(ParamPairs(params), ['&']));
    }
  }

  /** Keys and values free of `&` can be read back by splitting the added
      text on `&`. */
  lemma ParamsSplitBack(params: seq<(string, string)>)
    requires params != []
    requires forall i :: 0 <= i < |params| ==> '&' !in params[i].0 && '&' !in params[i].1
    ensures Split(Join(ParamPairs(params), ['&']), '&') == ParamPairs(params)
  {
    var pairs := ParamPairs(params);
    forall i | 0 <= i < |pairs|
      ensures '&' !in pairs[i]
    {
      assert pairs[i] == params[i].0 + ['='] + params[i].1;
    }
    JoinSplit(pairs, '&');
  }

  // ---------------------------------------------------------------------
  // Images

  const PosterSize := "w500"
  const BackdropSize := "w780"

  /** `get_image_url`: nothing for an empty path, otherwise the image host,
      `/t/p/`, the size and the path. */
  function ImageUrl(imageUrl: string, path: string, size: string): (r: string)
    ensures r == "" <==> path == ""
    ensures path != "" ==> IsPrefix(imageUrl + "/t/p/" + size, r) && IsSuffix(path, r)
  {
    if path == "" then ""
    else
      var prefix := imageUrl + "/t/p/" + size;
      var r := prefix + path;
      assert r[..|prefix|] == prefix && r[|r| - |path|..] == path;
      r
  }

  /** `get_image_url(d.get(key), size)`: a falsy path (missing, `None`,
      `False`, `0`, empty) gives no URL; any other path is formatted into
      the URL by `str()`.  The `str()` of a float, or of a non-empty list or
      dict, is not modelled and gives no URL either. */
  function ImageOf(imageUrl: string, path: JsonValue, size: string): (r: string)
    ensures Formatted(path) ==> (r == "" <==> !Truthy(path))
    ensures !Formatted(path) ==> r == ""
    ensures r != "" ==> IsPrefix(imageUrl + "/t/p/" + size, r)
    ensures r != "" && path.JStr? ==> IsSuffix(path.s, r)
    ensures r != "" && path.JInt? ==> IsSuffix(IntToString(path.i), r)
    ensures r != "" && path.JBool? ==> IsSuffix("True", r)
  {
    match path
    case JStr(p) => ImageUrl(imageUrl, p, size)
    case JInt(n) => if n == 0 then "" else ImageUrl(imageUrl, IntToString(n), size)
    case JBool(b) => if b then ImageUrl(imageUrl, "True", size) else ""
    case _ => ""
  }

  /** Python's truth value of a JSON value. */
  predicate Truthy(v: JsonValue) {
    match v
    case JNull => false
    case JBool(b) => b
    case JInt(n) => n != 0
    case JReal(r) => r != 0.0
    case JStr(s) => s != ""
    case JArr(items) => items != []
    case JObj(fields) => fields != map[]
  }

  /** A path whose `str()` the model spells out: text, an integer, a
      boolean, `None` or an empty list or dict. */
  predicate Formatted(v: JsonValue) {
    !v.JReal? && !(v.JArr? && v.items != []) && !(v.JObj? && v.fields != map[])
  }

  /** `if not path: return ""`: no URL exactly for a falsy path; otherwise
      the URL ends with the path's text. */
  lemma ImageOfTruthy(imageUrl: string, path: JsonValue, size: string)
    requires Formatted(path)
    ensures ImageOf(imageUrl, path, size) == "" <==> !Truthy(path)
    ensures path.JStr? && Truthy(path) ==> IsSuffix(path.s, ImageOf(imageUrl, path, size))
    ensures path.JInt? && Truthy(path) ==> IsSuffix(IntToString(path.i), ImageOf(imageUrl, path, size))
  {
  }

  // ---------------------------------------------------------------------
  // Response shaping

  /** The movie fields `search_movies` keeps, and the two image URLs. */
  datatype MovieSummary = MovieSummary(
    id: JsonValue, title: JsonValue, originalTitle: JsonValue, overview: JsonValue,
    releaseDate: JsonValue, voteAverage: JsonValue, voteCount: JsonValue,
    posterPath: JsonValue, backdropPath: JsonValue, genreIds: JsonValue,
    posterUrl: string, backdropUrl: string)

  datatype SearchPage = SearchPage(movies: seq<MovieSummary>, totalResults: JsonValue,
                                   totalPages: JsonValue, currentPage: int)

  datatype CastMember = CastMember(id: JsonValue, name: JsonValue, character: JsonValue,
                                   profilePath: JsonValue, profileUrl: string)

  datatype CrewMember = CrewMember(id: JsonValue, name: JsonValue, job: JsonValue,
                                   profilePath: JsonValue, profileUrl: string)

  datatype Credits = Credits(cast: seq<CastMember>, crew: seq<CrewMember>)

  const MaxCast := 10

  function ShapeMovie(m: map<string, JsonValue>, imageUrl: string): MovieSummary {
    MovieSummary(Get(m, "id"), Get(m, "title"), Get(m, "original_title"), Get(m, "overview"),
                 Get(m, "release_date"), Get(m, "vote_average"), Get(m, "vote_count"),
                 Get(m, "poster_path"), Get(m, "backdrop_path"), GetOr(m, "genre_ids", JArr([])),
                 ImageOf(imageUrl, Get(m, "poster_path"), PosterSize),
                 ImageOf(imageUrl, Get(m, "backdrop_path"), BackdropSize))
  }

  function ShapeCast(p: map<string, JsonValue>, imageUrl: string): CastMember {
    CastMember(Get(p, "id"), Get(p, "name"), Get(p, "character"), Get(p, "profile_path"),
               ImageOf(imageUrl, Get(p, "profile_path"), PosterSize))
  }

  function ShapeCrew(p: map<string, JsonValue>, imageUrl: string): CrewMember {
    CrewMember(Get(p, "id"), Get(p, "name"), Get(p, "job"), Get(p, "profile_path"),
               ImageOf(imageUrl, Get(p, "profile_path"), PosterSize))
  }

  predicate AllObjects(items: seq<JsonValue>) {
    forall i :: 0 <= i < |items| ==> items[i].JObj?
  }

  /** The elements a `for` loop visits in `d.get(key, [])`: a missing key
      or an empty string or dict gives none, a list its items; any other
      value raises, or yields elements that are not dicts. */
  function Iterated(d: map<string, JsonValue>, key: string): Option<seq<JsonValue>> {
    if key !in d then Some([])
    else match d[key]
      case JArr(items) => Some(items)
      case JStr(s) => if s == "" then Some([]) else None
      case JObj(m) => if m == map[] then Some([]) else None
      case _ => None
  }

  /** `d.get(key, [])[:10]`: the first ten items of a list; an empty string
      slices to nothing; a dict or any other value raises. */
  function FirstCast(d: map<string, JsonValue>, key: string): (r: Option<seq<JsonValue>>)
    ensures r.Some? ==> |r.value| <= MaxCast
  {
    if key !in d then Some([])
    else match d[key]
      case JArr(items) => Some(if |items| <= MaxCast then items else items[..MaxCast])
      case JStr(s) => if s == "" then Some([]) else None
      case _ => None
  }

  /** `person.get('job') in ['Director', 'Producer', 'Writer']`. */
  predicate KeyCrew(person: JsonValue) {
    person.JObj? && Get(person.fields, "job") in [JStr("Director"), JStr("Producer"), JStr("Writer")]
  }

  /** The shaped crew entries, in order. */
  function ShapeCrewAll(items: seq<JsonValue>, imageUrl: string): (r: seq<CrewMember>)
    requires AllObjects(items)
    ensures |r| == |items|
    ensures forall i :: 0 <= i < |r| ==> r[i] == ShapeCrew(items[i].fields, imageUrl)
  {
    if items == [] then []
    else
      var n := |items| - 1;
      ShapeCrewAll(items[..n], imageUrl) + [ShapeCrew(items[n].fields, imageUrl)]
  }

  /** `search_movies` after the request: one summary per result, in order,
      the totals (0 when absent) and the requested page.  `None` is the
      `except` branch. */
  method SearchMovies(response: JsonValue, page: int, imageUrl: string) returns (r: Option<SearchPage>)
    ensures r.Some? <==>
      response.JObj? && Iterated(response.fields, "results").Some?
      && AllObjects(Iterated(response.fields, "results").value)
    ensures r.Some? ==>
      var results := Iterated(response.fields, "results").value;
      |r.value.movies| == |results|
      && (forall i :: 0 <= i < |results| ==> r.value.movies[i] == ShapeMovie(results[i].fields, imageUrl))
      && r.value.totalResults == GetOr(response.fields, "total_results", JInt(0))
      && r.value.totalPages == GetOr(response.fields, "total_pages", JInt(0))
      && r.value.currentPage == page
  {
    if !response.JObj? {
      return None;
    }
    var data := response.fields;
    var found := Iterated(data, "results");
    if found.None? {
      return None;
    }
    var results := found.value;
    var movies: seq<MovieSummary> := [];
    var i := 0;
    while i < |results|
      invariant 0 <= i <= |results|
      invariant AllObjects(results[..i])
      invariant |movies| == i
      invariant forall j :: 0 <= j < i ==> movies[j] == ShapeMovie(results[j].fields, imageUrl)
    {
      var movie := results[i];
      if !movie.JObj? {
        return None;
      }
      movies := movies + [ShapeMovie(movie.fields, imageUrl)];
      i := i + 1;
    }
    assert results[..i] == results;
    return Some(SearchPage(movies, GetOr(data, "total_results", JInt(0)),
                           GetOr(data, "total_pages", JInt(0)), page));
  }

  /** The cast loop of `get_movie_credits`: each entry shaped in turn;
      an entry that is not a dict raises. */
  method CastList(castItems: seq<JsonValue>, imageUrl: string) returns (r: Option<seq<CastMember>>)
    ensures r.Some? <==> AllObjects(castItems)
    ensures r.Some? ==>
      |r.value| == |castItems|
      && forall i :: 0 <= i < |castItems| ==> r.value[i] == ShapeCast(castItems[i].fields, imageUrl)
  {
    var cast: seq<CastMember> := [];
    var i := 0;
    while i < |castItems|
      invariant 0 <= i <= |castItems|
      invariant AllObjects(castItems[..i])
      invariant |cast| == i
      invariant forall j :: 0 <= j < i ==> cast[j] == ShapeCast(castItems[j].fields, imageUrl)
    {
      var person := castItems[i];
      if !person.JObj? {
        return None;
      }
      assert castItems[..i + 1] == castItems[..i] + [person];
      var shaped := ShapeCast(person.fields, imageUrl);
      cast := cast + [shaped];
      i := i + 1;
    }
    assert castItems[..i] == castItems;
    return Some(cast);
  }

  /** One more crew entry adds its shape exactly when it is kept. */
  lemma CrewStep(items: seq<JsonValue>, i: nat, imageUrl: string)
    requires i < |items| && AllObjects(items[..i]) && items[i].JObj?
    ensures AllObjects(items[..i + 1]) && AllObjects(Keep(items[..i + 1], KeyCrew))
    ensures AllObjects(Keep(items[..i], KeyCrew))
    ensures ShapeCrewAll(Keep(items[..i + 1], KeyCrew), imageUrl)
         == ShapeCrewAll(Keep(items[..i], KeyCrew), imageUrl)
            + (if KeyCrew(items[i]) then [ShapeCrew(items[i].fields, imageUrl)] else [])
  {
    var prefix := items[..i + 1];
    assert prefix[..i] == items[..i];
    var kept := Keep(items[..i], KeyCrew);
    KeepAll(prefix, KeyCrew);
    KeepAll(items[..i], KeyCrew);
    if KeyCrew(items[i]) {
      assert (kept + [items[i]])[..|kept|] == kept;
    }
  }

  /** The crew loop of `get_movie_credits`: the directors, producers and
      writers shaped in turn; an entry that is not a dict raises. */
  method CrewList(crewItems: seq<JsonValue>, imageUrl: string) returns (r: Option<seq<CrewMember>>)
    ensures r.Some? <==> AllObjects(crewItems)
    ensures r.Some? ==>
      AllObjects(Keep(crewItems, KeyCrew)) && r.value == ShapeCrewAll(Keep(crewItems, KeyCrew), imageUrl)
  {
    var crew: seq<CrewMember> := [];
    var i := 0;
    while i < |crewItems|
      invariant 0 <= i <= |crewItems|
      invariant AllObjects(crewItems[..i]) && AllObjects(Keep(crewItems[..i], KeyCrew))
      invariant crew == ShapeCrewAll(Keep(crewItems[..i], KeyCrew), imageUrl)
    {
      var person := crewItems[i];
      if !person.JObj? {
        return None;
      }
      CrewStep(crewItems, i, imageUrl);
      if KeyCrew(person) {
        crew := crew + [ShapeCrew(person.fields, imageUrl)];
      }
      i := i + 1;
    }
    assert crewItems[..i] == crewItems;
    return Some(crew);
  }

  /** `get_movie_credits` after the request: the first ten cast entries,
      and the directors, producers and writers of the crew, each in its
      order.  `None` is the `except` branch. */
  method MovieCredits(response: JsonValue, imageUrl: string) returns (r: Option<Credits>)
    ensures r.Some? <==>
      response.JObj?
      && FirstCast(response.fields, "cast").Some? && AllObjects(FirstCast(response.fields, "cast").value)
      && Iterated(response.fields, "crew").Some? && AllObjects(Iterated(response.fields, "crew").value)
    ensures r.Some? ==>
      var castItems := FirstCast(response.fields, "cast").value;
      var crewItems := Iterated(response.fields, "crew").value;
      |r.value.cast| == |castItems|
      && (forall i :: 0 <= i < |castItems| ==> r.value.cast[i] == ShapeCast(castItems[i].fields, imageUrl))
      && AllObjects(Keep(crewItems, KeyCrew))
      && r.value.crew == ShapeCrewAll(Keep(crewItems, KeyCrew), imageUrl)
  {
    if !response.JObj? {
      return None;
    }
    var data := response.fields;
    var foundCast := FirstCast(data, "cast");
    if foundCast.None? {
      return None;
    }
    var cast := CastList(foundCast.value, imageUrl);
    if cast.None? {
      return None;
    }
    var foundCrew := Iterated(data, "crew");
    if foundCrew.None? {
      return None;
    }
    var crew := CrewList(foundCrew.value, imageUrl);
    if crew.None? {
      return None;
    }
    return Some(Credits(cast.value, crew.value));
  }

  /** The cast is a prefix of the response's cast list, at most ten long,
      and all of it when the list is that short. */
  lemma FirstCastIsPrefix(d: map<string, JsonValue>)
    requires "cast" in d && d["cast"].JArr?
    ensures var items := d["cast"].items;
      var r := FirstCast(d, "cast").value;
      r == items[..|r|] && |r| == (if |items| <= MaxCast then |items| else MaxCast)
  {
  }

  /** The crew kept are exactly the directors, producers and writers. */
  lemma KeyCrewExactly(crewItems: seq<JsonValue>, person: JsonValue)
    ensures person in Keep(crewItems, KeyCrew) <==>
      person in crewItems && person.JObj?
      && Get(person.fields, "job") in [JStr("Director"), JStr("Producer"), JStr("Writer")]
  {
    KeepMembers(crewItems, KeyCrew, person);
  }
}
