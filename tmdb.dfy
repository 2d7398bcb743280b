/** lib/tmdb.ts: the catalogue builder. It turns a filter record into the
    query parameters of TMDB's discovery endpoints, reads each title's
    streaming availability, normalises genre names, and assembles the
    session catalogue (interleaving movies and TV shows, renumbering, and
    retrying once without the explicit genre picks). TMDB's HTTP endpoints
    are parameters of the model: `discover` answers a discovery page for a
    parameter dictionary, `details` answers a title's details. */
module Tmdb {
  import opened Wrappers
  import opened Lists
  import opened Text
  import opened Types
  import Constants

  // ─── Constant tables ─────────────────────────────────────────────

  const GenreMap: map<string, int> := map[
    "Action" := 28, "Comedy" := 35, "Drama" := 18, "Horror" := 27,
    "Thriller" := 53, "Sci-Fi" := 878, "Romance" := 10749, "Documentary" := 99,
    "Animation" := 16, "Fantasy" := 14, "Mystery" := 9648, "Crime" := 80]

  /** TV ids that replace the movie ids of two genres. */
  const TvGenreMap: map<string, int> := map["Action" := 10759, "Sci-Fi" := 10765]

  const ProviderMap: map<string, int> := map[
    "netflix" := 8, "hulu" := 15, "max" := 1899, "prime" := 119, "disney" := 337,
    "peacock" := 386, "paramount" := 531, "apple" := 350, "tubi" := 73, "pluto" := 300]

  /** The inverse of `ProviderMap`, built in the source with `Object.fromEntries`. */
  const ReverseProviderMap: map<int, string> := map[
    8 := "netflix", 15 := "hulu", 1899 := "max", 119 := "prime", 337 := "disney",
    386 := "peacock", 531 := "paramount", 350 := "apple", 73 := "tubi", 300 := "pluto"]

  const MoodGenreMap: map<string, seq<string>> := map[
    "chill" := ["Drama", "Romance"],
    "feelgood" := ["Comedy", "Romance", "Animation"],
    "intense" := ["Action", "Thriller", "Crime"],
    "mindbending" := ["Sci-Fi", "Mystery", "Thriller"],
    "scary" := ["Horror", "Thriller"],
    "funny" := ["Comedy"],
    "tearjerker" := ["Drama", "Romance"]]

  /** TMDB's genre names that the app shows under one of its own names. */
  const TmdbGenreNameMap: map<string, string> := map[
    "Science Fiction" := "Sci-Fi",
    "Action & Adventure" := "Action",
    "Sci-Fi & Fantasy" := "Sci-Fi",
    "War & Politics" := "Drama"]

  /** The reverse table really is the inverse of the provider table. */
  lemma ReverseProviderMapInverts()
    ensures forall s :: s in ProviderMap ==> ProviderMap[s] in ReverseProviderMap && ReverseProviderMap[ProviderMap[s]] == s
    ensures forall p :: p in ReverseProviderMap ==> ReverseProviderMap[p] in ProviderMap && ProviderMap[ReverseProviderMap[p]] == p
  {
  }

  /** Every option the filter and service screens offer is known to the builder. */
  lemma OptionTablesAgree()
    ensures forall g :: g in Constants.Genres ==> g in GenreMap
    ensures forall m :: m in Constants.MoodIds <==> m in MoodGenreMap
    ensures forall s :: s in Constants.StreamingServiceIds <==> s in ProviderMap
    ensures forall m, g :: m in MoodGenreMap && g in MoodGenreMap[m] ==> g in GenreMap
  {
  }

  // ─── Genre resolution ───────────────────────────────────────────

  /** `names.map(n => m[n]).filter(Boolean)`: the ids of the names `m` knows,
      in order (a zero id would be dropped too). */
  function LookupAll<K(!new)>(names: seq<K>, m: map<K, int>): (r: seq<int>)
    ensures |r| <= |names|
    ensures forall v :: v in r ==> v != 0 && exists n :: n in names && n in m && m[n] == v
    ensures forall n :: n in names && n in m && m[n] != 0 ==> m[n] in r
  {
    if names == [] then []
    else
      (if names[0] in m && m[names[0]] != 0 then [m[names[0]]] else []) + LookupAll(names[1..], m)
  }

  /** Explicit genre picks when there are any; otherwise the genres of a
      known mood; otherwise none. */
  function GenreNames(f: Filters): seq<string> {
    if |f.genres| > 0 then f.genres
    else if f.mood.Some? && f.mood.value in MoodGenreMap then MoodGenreMap[f.mood.value]
    else []
  }

  /** The movie genre ids, with the TV overrides laid over them for TV. */
  function GenreBase(isTV: bool): map<string, int> {
    if isTV then GenreMap + TvGenreMap else GenreMap
  }

  function ResolveGenreIds(f: Filters, isTV: bool): (r: seq<int>)
    ensures |r| <= |GenreNames(f)|
    ensures forall id :: id in r ==> exists n :: n in GenreNames(f) && n in GenreBase(isTV) && GenreBase(isTV)[n] == id
  {
    LookupAll(GenreNames(f), GenreBase(isTV))
  }

  /** Explicit genre picks win: the mood is then not consulted at all. */
  lemma ExplicitGenresIgnoreMood(f: Filters, mood: Option<string>, isTV: bool)
    requires |f.genres| > 0
    ensures ResolveGenreIds(f.(mood := mood), isTV) == ResolveGenreIds(f, isTV)
  {
  }

  /** Without picks, a known mood supplies its genres; every one of them has
      an id, so nothing is dropped. */
  lemma {:induction false} MoodGenresAllResolve(f: Filters, isTV: bool)
    requires |f.genres| == 0 && f.mood.Some? && f.mood.value in MoodGenreMap
    ensures |ResolveGenreIds(f, isTV)| == |MoodGenreMap[f.mood.value]|
  {
    var names := MoodGenreMap[f.mood.value];
    OptionTablesAgree();
    GenreBaseKnowsAll(isTV);
    assert forall i :: 0 <= i < |names| ==> names[i] in GenreBase(isTV) && GenreBase(isTV)[names[i]] != 0;
    LookupAllKnownNames(names, GenreBase(isTV));
  }

  lemma GenreBaseKnowsAll(isTV: bool)
    ensures forall g :: g in GenreMap ==> g in GenreBase(isTV) && GenreBase(isTV)[g] != 0
  {
  }

  lemma {:induction false} LookupAllKnownNames<K(!new)>(names: seq<K>, m: map<K, int>)
    requires forall i :: 0 <= i < |names| ==> names[i] in m && m[names[i]] != 0
    ensures |LookupAll(names, m)| == |names|
  {
    if names != [] {
      LookupAllKnownNames(names[1..], m);
    }
  }

  /** Without picks and without a known mood there are no genre ids. */
  lemma NoPicksNoMoodNoGenres(f: Filters, isTV: bool)
    requires |f.genres| == 0 && (f.mood.None? || f.mood.value !in MoodGenreMap)
    ensures ResolveGenreIds(f, isTV) == []
  {
  }

  /** The TV overrides touch only Action and Sci-Fi: for any other names the
      TV ids equal the movie ids. */
  lemma {:induction false} TvOverridesOnlyActionAndSciFi(names: seq<string>)
    requires "Action" !in names && "Sci-Fi" !in names
    ensures LookupAll(names, GenreBase(true)) == LookupAll(names, GenreBase(false))
  {
    if names != [] {
      TvOverridesOnlyActionAndSciFi(names[1..]);
    }
  }

  // ─── Discovery parameters ───────────────────────────────────────

  /** The query parameters the builder can set; `Name` gives each one's
      name on the wire. */
  datatype ParamKey =
    | SortBy | VoteCountGte | OriginalLanguage | WatchRegion | MonetizationTypes
    | WatchProviders | WithGenres | VoteAverageGte | RuntimeGte | RuntimeLte
    | ReleaseDateGte | ReleaseDateLte | AirDateGte | AirDateLte
    | CertificationCountry | Certification

  function Name(k: ParamKey): string {
    match k
    case SortBy => "sort_by"
    case VoteCountGte => "vote_count.gte"
    case OriginalLanguage => "with_original_language"
    case WatchRegion => "watch_region"
    case MonetizationTypes => "with_watch_monetization_types"
    case WatchProviders => "with_watch_providers"
    case WithGenres => "with_genres"
    case VoteAverageGte => "vote_average.gte"
    case RuntimeGte => "with_runtime.gte"
    case RuntimeLte => "with_runtime.lte"
    case ReleaseDateGte => "primary_release_date.gte"
    case ReleaseDateLte => "primary_release_date.lte"
    case AirDateGte => "first_air_date.gte"
    case AirDateLte => "first_air_date.lte"
    case CertificationCountry => "certification_country"
    case Certification => "certification"
  }

  type Params = map<ParamKey, string>

  const FixedParams: Params := map[
    SortBy := "popularity.desc",
    VoteCountGte := "200",
    OriginalLanguage := "en",
    WatchRegion := "US",
    MonetizationTypes := "flatrate|free|ads"]

  function ProviderIds(selectedServices: seq<string>): seq<int> {
    LookupAll(selectedServices, ProviderMap)
  }

  /** `ids.join('|')`. */
  function IdList(ids: seq<int>): string {
    Join(seq(|ids|, i requires 0 <= i < |ids| => IntToString(ids[i])), "|")
  }

  /** TMDB reads a '|'-joined id list back as exactly the ids that were joined. */
  lemma IdListSplits(ids: seq<int>)
    requires |ids| > 0
    ensures Split(IdList(ids), '|') == seq(|ids|, i requires 0 <= i < |ids| => IntToString(ids[i]))
  {
    SplitJoin(seq(|ids|, i requires 0 <= i < |ids| => IntToString(ids[i])), '|');
  }

  function YearGte(range: YearRange): Option<string> {
    match range
    case YearList(_) => None
    case YearText(s) =>
      if s == "2000s" then Some("2000-01-01")
      else if s == "2010s" then Some("2010-01-01")
      else if s == "recent" then Some("2020-01-01")
      else None
  }

  function YearLte(range: YearRange): Option<string> {
    match range
    case YearList(_) => None
    case YearText(s) =>
      if s == "classic" then Some("1999-12-31")
      else if s == "2000s" then Some("2009-12-31")
      else if s == "2010s" then Some("2019-12-31")
      else None
  }

  function DateGteKey(isTV: bool): ParamKey {
    if isTV then AirDateGte else ReleaseDateGte
  }

  function DateLteKey(isTV: bool): ParamKey {
    if isTV then AirDateLte else ReleaseDateLte
  }

  predicate SendsCertifications(f: Filters, isTV: bool) {
    !isTV && f.certifications.Some? && |f.certifications.value| > 0
  }

  /** What a discovery query sends under each parameter, key by key: the
      five fixed parameters always; the provider and genre ids when there
      are any; a rating floor for a positive minimum; runtime bounds for
      movies only (short at most 90, medium 90 to 120, long at least 120);
      release-date bounds on the primary release date for movies and the
      first air date for TV (a list-valued year filter matches no option
      and sends none); certifications for movies with a non-empty list. */
  function ValueOf(f: Filters, providerIds: seq<int>, genreIds: seq<int>, isTV: bool, k: ParamKey): Option<string> {
    match k
    case SortBy => Some("popularity.desc")
    case VoteCountGte => Some("200")
    case OriginalLanguage => Some("en")
    case WatchRegion => Some("US")
    case MonetizationTypes => Some("flatrate|free|ads")
    case WatchProviders => if |providerIds| > 0 then Some(IdList(providerIds)) else None
    case WithGenres => if |genreIds| > 0 then Some(IdList(genreIds)) else None
    case VoteAverageGte =>
      if f.minRating.Some? && f.minRating.value > 0 then Some(IntToString(f.minRating.value)) else None
    case RuntimeGte =>
      if isTV then None
      else if f.runtimeRange == Some("medium") then Some("90")
      else if f.runtimeRange == Some("long") then Some("120")
      else None
    case RuntimeLte =>
      if isTV then None
      else if f.runtimeRange == Some("short") then Some("90")
      else if f.runtimeRange == Some("medium") then Some("120")
      else None
    case ReleaseDateGte => if isTV then None else YearGte(f.releaseYearRange)
    case ReleaseDateLte => if isTV then None else YearLte(f.releaseYearRange)
    case AirDateGte => if isTV then YearGte(f.releaseYearRange) else None
    case AirDateLte => if isTV then YearLte(f.releaseYearRange) else None
    case CertificationCountry => if SendsCertifications(f, isTV) then Some("US") else None
    case Certification =>
      if SendsCertifications(f, isTV) then Some(Join(f.certifications.value, "|")) else None
  }

  /** The value sent under `k` for these filters and services, with the
      provider and genre ids resolved through the id tables. */
  function ParamValue(f: Filters, selectedServices: seq<string>, isTV: bool, k: ParamKey): Option<string> {
    ValueOf(f, ProviderIds(selectedServices), ResolveGenreIds(f, isTV), isTV, k)
  }

  /** A year filter held as a list matches no year option, so no query
      bounds the release or air date. */
  lemma ListYearSendsNoDates(f: Filters, selectedServices: seq<string>, isTV: bool)
    requires f.releaseYearRange.YearList?
    ensures ParamValue(f, selectedServices, isTV, DateGteKey(isTV)) == None
    ensures ParamValue(f, selectedServices, isTV, DateLteKey(isTV)) == None
  {
  }

  const AllParamKeys: set<ParamKey> := {
    SortBy, VoteCountGte, OriginalLanguage, WatchRegion, MonetizationTypes,
    WatchProviders, WithGenres, VoteAverageGte, RuntimeGte, RuntimeLte,
    ReleaseDateGte, ReleaseDateLte, AirDateGte, AirDateLte,
    CertificationCountry, Certification}

  /** The parameter dictionary: every key with a value to send. */
  function DiscoverParams(f: Filters, selectedServices: seq<string>, isTV: bool): Params {
    map k | k in AllParamKeys && ParamValue(f, selectedServices, isTV, k).Some? ::
      ParamValue(f, selectedServices, isTV, k).value
  }

  /** Movie queries read `filters.certifications.length`, which throws when
      the field is undefined (as it is in the default filter state). */
  predicate ParamsThrow(f: Filters, isTV: bool) {
    !isTV && f.certifications.None?
  }

  const TypeErrorMessage := "Cannot read properties of undefined (reading 'length')"

  /** The step of the builder that sets a key: 0 for the fixed parameters,
      then providers, genres, rating, runtime, release dates, certifications. */
  function Step(k: ParamKey): nat {
    match k
    case SortBy | VoteCountGte | OriginalLanguage | WatchRegion | MonetizationTypes => 0
    case WatchProviders => 1
    case WithGenres => 2
    case VoteAverageGte => 3
    case RuntimeGte | RuntimeLte => 4
    case ReleaseDateGte | ReleaseDateLte | AirDateGte | AirDateLte => 5
    case CertificationCountry | Certification => 6
  }

  /** `params` holds exactly the parameters of the steps before `steps` that
      have a value, with that value. */
  ghost predicate Agrees(params: Params, f: Filters, providerIds: seq<int>, genreIds: seq<int>, isTV: bool, steps: nat) {
    forall k :: (k in params <==> Step(k) < steps && ValueOf(f, providerIds, genreIds, isTV, k).Some?)
             && (k in params ==> params[k] == ValueOf(f, providerIds, genreIds, isTV, k).value)
  }

  lemma AgreesAfterAllSteps(params: Params, f: Filters, selectedServices: seq<string>, isTV: bool)
    requires Agrees(params, f, ProviderIds(selectedServices), ResolveGenreIds(f, isTV), isTV, 7)
    ensures params == DiscoverParams(f, selectedServices, isTV)
  {
    forall k: ParamKey
      ensures k in params <==> k in DiscoverParams(f, selectedServices, isTV)
      ensures k in params ==> params[k] == DiscoverParams(f, selectedServices, isTV)[k]
    {
      DiscoverParamsLookup(f, selectedServices, isTV, k);
      assert Step(k) < 7;
    }
  }


  /** The five fixed parameters are exactly what the first step sets. */
  lemma FixedParamsAgree(f: Filters, providerIds: seq<int>, genreIds: seq<int>, isTV: bool)
    ensures Agrees(FixedParams, f, providerIds, genreIds, isTV, 1)
  {
  }

  /** Fills the dictionary step by step, in the source's order; the result
      is the pointwise dictionary above, or the TypeError. */
  method BuildDiscoverParams(f: Filters, selectedServices: seq<string>, isTV: bool)
    returns (r: Result<Params>)
    ensures r.Err? <==> ParamsThrow(f, isTV)
    ensures r.Err? ==> r.message == TypeErrorMessage
    ensures r.Ok? ==> r.value == DiscoverParams(f, selectedServices, isTV)
  {
    var providerIds := ProviderIds(selectedServices);
    var genreIds := ResolveGenreIds(f, isTV);
    var params := FixedParams;
    FixedParamsAgree(f, providerIds, genreIds, isTV);
    params := AddProviders(params, f, providerIds, genreIds, isTV);
    params := AddGenres(params, f, providerIds, genreIds, isTV);
    params := AddRating(params, f, providerIds, genreIds, isTV);
    params := AddRuntimeBounds(params, f, providerIds, genreIds, isTV);
    params := AddReleaseDates(params, f, providerIds, genreIds, isTV);
    r := AddCertifications(params, f, providerIds, genreIds, isTV);
    if r.Ok? {
      AgreesAfterAllSteps(r.value, f, selectedServices, isTV);
    }
  }

  /** The provider step of the builder. */
  method AddProviders(params: Params, f: Filters, providerIds: seq<int>, genreIds: seq<int>, isTV: bool)
    returns (p: Params)
    requires Agrees(params, f, providerIds, genreIds, isTV, 1)
    ensures Agrees(p, f, providerIds, genreIds, isTV, 2)
  {
    p := params;
    if |providerIds| > 0 {
      p := p[WatchProviders := IdList(providerIds)];
    }
  }

  /** The genre step of the builder. */
  method AddGenres(params: Params, f: Filters, providerIds: seq<int>, genreIds: seq<int>, isTV: bool)
    returns (p: Params)
    requires Agrees(params, f, providerIds, genreIds, isTV, 2)
    ensures Agrees(p, f, providerIds, genreIds, isTV, 3)
  {
    p := params;
    if |genreIds| > 0 {
      p := p[WithGenres := IdList(genreIds)];
    }
  }

  /** The rating step of the builder. */
  method AddRating(params: Params, f: Filters, providerIds: seq<int>, genreIds: seq<int>, isTV: bool)
    returns (p: Params)
    requires Agrees(params, f, providerIds, genreIds, isTV, 3)
    ensures Agrees(p, f, providerIds, genreIds, isTV, 4)
  {
    p := params;
    if f.minRating.Some? && f.minRating.value > 0 {
      p := p[VoteAverageGte := IntToString(f.minRating.value)];
    }
  }

  /** The certification step: movie queries read the list's length, so an
      undefined list throws there. */
  method AddCertifications(params: Params, f: Filters, providerIds: seq<int>, genreIds: seq<int>, isTV: bool)
    returns (r: Result<Params>)
    requires Agrees(params, f, providerIds, genreIds, isTV, 6)
    ensures r.Err? <==> ParamsThrow(f, isTV)
    ensures r.Err? ==> r.message == TypeErrorMessage
    ensures r.Ok? ==> Agrees(r.value, f, providerIds, genreIds, isTV, 7)
  {
    var p := params;
    if !isTV {
      if f.certifications.None? {
        return Err(TypeErrorMessage);
      }
      if |f.certifications.value| > 0 {
        p := p[CertificationCountry := "US"];
        p := p[Certification := Join(f.certifications.value, "|")];
      }
    }
    return Ok(p);
  }

  /** The runtime step of the builder (movies only). */
  method AddRuntimeBounds(params: Params, f: Filters, providerIds: seq<int>, genreIds: seq<int>, isTV: bool)
    returns (p: Params)
    requires Agrees(params, f, providerIds, genreIds, isTV, 4)
    ensures Agrees(p, f, providerIds, genreIds, isTV, 5)
  {
    p := params;
    if !isTV && f.runtimeRange.Some? && f.runtimeRange.value != "any" {
      var range := f.runtimeRange.value;
      if range == "short" {
        p := p[RuntimeLte := "90"];
      } else if range == "medium" {
        p := p[RuntimeGte := "90"];
        p := p[RuntimeLte := "120"];
      } else if range == "long" {
        p := p[RuntimeGte := "120"];
      }
    }
  }

  /** The release-date step of the builder. */
  method AddReleaseDates(params: Params, f: Filters, providerIds: seq<int>, genreIds: seq<int>, isTV: bool)
    returns (p: Params)
    requires Agrees(params, f, providerIds, genreIds, isTV, 5)
    ensures Agrees(p, f, providerIds, genreIds, isTV, 6)
  {
    p := params;
    if f.releaseYearRange.YearText? && f.releaseYearRange.text != "any" {
      var dateGte := DateGteKey(isTV);
      var dateLte := DateLteKey(isTV);
      var range := f.releaseYearRange.text;
      if range == "classic" {
        p := p[dateLte := "1999-12-31"];
      } else if range == "2000s" {
        p := p[dateGte := "2000-01-01"];
        p := p[dateLte := "2009-12-31"];
      } else if range == "2010s" {
        p := p[dateGte := "2010-01-01"];
        p := p[dateLte := "2019-12-31"];
      } else if range == "recent" {
        p := p[dateGte := "2020-01-01"];
      }
    }
    DatesAgree(params, p, f, providerIds, genreIds, isTV);
  }

  /** The release-date step is correct once the two date keys of the query
      hold the bounds of the year range and nothing else has changed. */
  lemma DatesAgree(params: Params, p: Params, f: Filters, providerIds: seq<int>, genreIds: seq<int>, isTV: bool)
    requires Agrees(params, f, providerIds, genreIds, isTV, 5)
    requires forall k :: k != DateGteKey(isTV) && k != DateLteKey(isTV) ==>
      (k in p <==> k in params) && (k in p ==> p[k] == params[k])
    requires DateGteKey(isTV) in p <==> YearGte(f.releaseYearRange).Some?
    requires DateGteKey(isTV) in p ==> p[DateGteKey(isTV)] == YearGte(f.releaseYearRange).value
    requires DateLteKey(isTV) in p <==> YearLte(f.releaseYearRange).Some?
    requires DateLteKey(isTV) in p ==> p[DateLteKey(isTV)] == YearLte(f.releaseYearRange).value
    ensures Agrees(p, f, providerIds, genreIds, isTV, 6)
  {
  }

  /** The five fixed parameters are always sent with their fixed values. */
  lemma FixedKeysAlwaysPresent(f: Filters, selectedServices: seq<string>, isTV: bool)
    ensures forall k :: k in FixedParams ==>
      k in DiscoverParams(f, selectedServices, isTV) && DiscoverParams(f, selectedServices, isTV)[k] == FixedParams[k]
  {
    forall k | k in FixedParams
      ensures k in DiscoverParams(f, selectedServices, isTV) && DiscoverParams(f, selectedServices, isTV)[k] == FixedParams[k]
    {
      DiscoverParamsLookup(f, selectedServices, isTV, k);
      assert ValueOf(f, ProviderIds(selectedServices), ResolveGenreIds(f, isTV), isTV, k) == Some(FixedParams[k]);
    }
  }

  /** The dictionary holds each key that has a value, with that value. */
  lemma DiscoverParamsLookup(f: Filters, selectedServices: seq<string>, isTV: bool, k: ParamKey)
    ensures k in DiscoverParams(f, selectedServices, isTV) <==> ParamValue(f, selectedServices, isTV, k).Some?
    ensures k in DiscoverParams(f, selectedServices, isTV) ==>
      DiscoverParams(f, selectedServices, isTV)[k] == ParamValue(f, selectedServices, isTV, k).value
  {
    assert k in AllParamKeys by {
      match k
      case SortBy => case VoteCountGte => case OriginalLanguage => case WatchRegion =>
      case MonetizationTypes => case WatchProviders => case WithGenres => case VoteAverageGte =>
      case RuntimeGte => case RuntimeLte => case ReleaseDateGte => case ReleaseDateLte =>
      case AirDateGte => case AirDateLte => case CertificationCountry => case Certification =>
    }
  }

  // ─── Streaming availability ─────────────────────────────────────

  /** One region's provider lists, each possibly absent; providers are given by id. */
  datatype Region = Region(flatrate: Option<seq<int>>, ads: Option<seq<int>>, free: Option<seq<int>>)

  /** The US providers of a title: flat-rate, then ad-supported, then free;
      none when the title has no provider data or no US entry. */
  function UsProviders(results: Option<map<string, Region>>): seq<int> {
    if results.Some? && "US" in results.value then
      var us := results.value["US"];
      us.flatrate.GetOr([]) + us.ads.GetOr([]) + us.free.GetOr([])
    else []
  }

  /** The app ids of the providers that the user selected, in provider order,
      repeats included. */
  function SelectedAppIds(providers: seq<int>, selectedServices: seq<string>): seq<string> {
    if providers == [] then []
    else
      var rest := SelectedAppIds(providers[..|providers| - 1], selectedServices);
      var p := providers[|providers| - 1];
      if p in ReverseProviderMap && ReverseProviderMap[p] in selectedServices then rest + [ReverseProviderMap[p]]
      else rest
  }

  lemma {:induction false} SelectedAppIdsMembers(providers: seq<int>, selectedServices: seq<string>)
    ensures forall s :: s in SelectedAppIds(providers, selectedServices) <==>
      s in selectedServices && exists p :: p in providers && p in ReverseProviderMap && ReverseProviderMap[p] == s
  {
    if providers != [] {
      var init := providers[..|providers| - 1];
      SelectedAppIdsMembers(init, selectedServices);
      assert providers == init + [providers[|providers| - 1]];
    }
  }

  lemma SelectedAppIdsStep(providers: seq<int>, i: nat, selectedServices: seq<string>)
    requires i < |providers|
    ensures var p := providers[i];
      SelectedAppIds(providers[..i + 1], selectedServices) ==
        if p in ReverseProviderMap && ReverseProviderMap[p] in selectedServices
        then SelectedAppIds(providers[..i], selectedServices) + [ReverseProviderMap[p]]
        else SelectedAppIds(providers[..i], selectedServices)
  {
    assert providers[..i + 1][..i] == providers[..i];
  }

  /** The selected services a title can be streamed on, each once. */
  function AvailableOn(results: Option<map<string, Region>>, selectedServices: seq<string>): seq<string> {
    Dedup(SelectedAppIds(UsProviders(results), selectedServices))
  }

  /** What `extractAvailableOn` promises: a duplicate-free list of exactly
      the selected services that some US provider entry maps to; empty
      without US data. */
  lemma AvailableOnSpec(results: Option<map<string, Region>>, selectedServices: seq<string>)
    ensures NoDups(AvailableOn(results, selectedServices))
    ensures forall s :: s in AvailableOn(results, selectedServices) <==>
      s in selectedServices && exists p :: p in UsProviders(results) && p in ReverseProviderMap && ReverseProviderMap[p] == s
    ensures results.None? || "US" !in results.value ==> AvailableOn(results, selectedServices) == []
  {
    SelectedAppIdsMembers(UsProviders(results), selectedServices);
  }

  method ExtractAvailableOn(results: Option<map<string, Region>>, selectedServices: seq<string>)
    returns (available: seq<string>)
    ensures available == AvailableOn(results, selectedServices)
  {
    if results.None? || "US" !in results.value {
      return [];
    }
    var allProviders := UsProviders(results);
    available := [];
    var i := 0;
    while i < |allProviders|
      invariant 0 <= i <= |allProviders|
      invariant available == Dedup(SelectedAppIds(allProviders[..i], selectedServices))
    {
      var p := allProviders[i];
      SelectedAppIdsStep(allProviders, i, selectedServices);
      if p in ReverseProviderMap && ReverseProviderMap[p] in selectedServices {
        var appId := ReverseProviderMap[p];
        DedupSnoc(SelectedAppIds(allProviders[..i], selectedServices), appId);
        if appId !in available {
          available := available + [appId];
        }
      }
      i := i + 1;
    }
    assert allProviders[..i] == allProviders;
  }

  // ─── Genre names ────────────────────────────────────────────────

  datatype TmdbGenre = TmdbGenre(id: int, name: string)

  function CanonicalGenreName(name: string): string {
    if name in TmdbGenreNameMap then TmdbGenreNameMap[name] else name
  }

  /** TMDB genre names renamed to the app's names, keeping only names the
      app knows. */
  function MapGenreNames(tmdbGenres: seq<TmdbGenre>): (r: seq<string>)
    ensures |r| <= |tmdbGenres|
    ensures forall n :: n in r ==> n in GenreMap
    ensures forall n :: n in r <==> n in GenreMap && exists g :: g in tmdbGenres && CanonicalGenreName(g.name) == n
  {
    if tmdbGenres == [] then []
    else
      var n := CanonicalGenreName(tmdbGenres[0].name);
      assert tmdbGenres == [tmdbGenres[0]] + tmdbGenres[1..];
      (if n in GenreMap then [n] else []) + MapGenreNames(tmdbGenres[1..])
  }

  /** Aliases are renamed before the filter: TMDB's own names for these
      genres are unknown to the app, but their renamed forms survive. */
  lemma AliasesSurviveFiltering(id: int, alias: string)
    requires alias in TmdbGenreNameMap
    ensures alias !in GenreMap
    ensures MapGenreNames([TmdbGenre(id, alias)]) == [TmdbGenreNameMap[alias]]
  {
    assert [TmdbGenre(id, alias)][1..] == [];
  }

  // ─── Catalogue assembly ─────────────────────────────────────────

  /** A discovery hit; `hasTitle` is the source's `'title' in r` test,
      true for movies. */
  datatype DiscoverResult = DiscoverResult(id: int, hasTitle: bool)

  /** A title's details as TMDB reports them, already reduced to the
      catalogue item's fields (poster URL, rounding and TV run-time
      averaging are not modelled). */
  datatype TitleDetails = TitleDetails(
    tmdbId: int,
    title: string,
    posterUrl: string,
    synopsis: string,
    genres: seq<TmdbGenre>,
    runtime: int,
    releaseYear: int,
    rating: real,
    providers: Option<map<string, Region>>)

  /** The item streams on some selected service, and only on selected ones. */
  predicate Streamable(x: CatalogItem, selectedServices: seq<string>) {
    |x.availableOn| > 0 && forall s :: s in x.availableOn ==> s in selectedServices
  }

  /** fetchMovieDetails / fetchTVDetails after the HTTP call: no item when
      the title streams on none of the selected services. */
  function DetailsToItem(d: TitleDetails, selectedServices: seq<string>, displayOrder: int): (r: Option<CatalogItem>)
    ensures r.Some? ==> Streamable(r.value, selectedServices) && r.value.tmdbId == d.tmdbId
  {
    var availableOn := AvailableOn(d.providers, selectedServices);
    AvailableOnSpec(d.providers, selectedServices);
    if |availableOn| == 0 then None
    else
      Some(CatalogItem(Unassigned, Unassigned, d.tmdbId, d.title, d.posterUrl, d.synopsis,
                       MapGenreNames(d.genres), d.runtime, d.releaseYear, d.rating, availableOn, displayOrder))
  }

  /** A title is dropped exactly when it streams on no selected service; a
      kept title carries only genre names the app knows. */
  lemma DetailsToItemSpec(d: TitleDetails, selectedServices: seq<string>, displayOrder: int)
    ensures DetailsToItem(d, selectedServices, displayOrder).None? <==> |AvailableOn(d.providers, selectedServices)| == 0
    ensures DetailsToItem(d, selectedServices, displayOrder).Some? ==>
      forall g :: g in DetailsToItem(d, selectedServices, displayOrder).value.genres ==> g in GenreMap
  {
  }

  /** `items.filter(item => item !== null)`. */
  function Present(items: seq<Option<CatalogItem>>): (r: seq<CatalogItem>)
    ensures |r| <= |items|
    ensures forall x :: x in r <==> Some(x) in items
  {
    if items == [] then []
    else
      assert items == [items[0]] + items[1..];
      (if items[0].Some? then [items[0].value] else []) + Present(items[1..])
  }

  /** Titles per media type: 10 each when both are wanted, else 20. */
  function PerType(ct: ContentType): nat {
    if ct == Both then 10 else 20
  }

  predicate IncludesMovies(ct: ContentType) {
    ct == Movies || ct == Both
  }

  predicate IncludesTv(ct: ContentType) {
    ct == Tv || ct == Both
  }

  /** `s.slice(0, n)`. */
  function Take<T>(s: seq<T>, n: nat): (r: seq<T>)
    ensures |r| <= n && |r| <= |s|
  {
    if |s| <= n then s else s[..n]
  }

  /** The first two discovery pages, cut to the per-type quota. */
  function Discovered(ct: ContentType, isTV: bool, params: Params,
                      discover: (bool, Params, int) -> seq<DiscoverResult>): (r: seq<DiscoverResult>)
    ensures |r| <= PerType(ct)
  {
    Take(discover(isTV, params, 1) + discover(isTV, params, 2), PerType(ct))
  }

  /** The details of each hit, in order, dropping those not available. */
  function Fetched(results: seq<DiscoverResult>, isTV: bool, selectedServices: seq<string>,
                   details: (bool, int) -> TitleDetails): (r: seq<CatalogItem>)
    ensures |r| <= |results|
    ensures forall x :: x in r ==> Streamable(x, selectedServices)
  {
    var items := FetchedItems(results, isTV, selectedServices, details);
    PresentItemsAvailable(items, selectedServices);
    Present(items)
  }

  /** The details of each hit as an item numbered by its position, or none. */
  function FetchedItems(results: seq<DiscoverResult>, isTV: bool, selectedServices: seq<string>,
                        details: (bool, int) -> TitleDetails): (r: seq<Option<CatalogItem>>)
    ensures |r| == |results|
    ensures forall i :: 0 <= i < |r| && r[i].Some? ==> Streamable(r[i].value, selectedServices)
  {
    if results == [] then []
    else
      var n := |results| - 1;
      FetchedItems(results[..n], isTV, selectedServices, details)
        + [DetailsToItem(details(isTV, results[n].id), selectedServices, n + 1)]
  }

  lemma PresentItemsAvailable(items: seq<Option<CatalogItem>>, selectedServices: seq<string>)
    requires forall i :: 0 <= i < |items| && items[i].Some? ==> Streamable(items[i].value, selectedServices)
    ensures forall x :: x in Present(items) ==> Streamable(x, selectedServices)
  {
    forall x | x in Present(items)
      ensures Streamable(x, selectedServices)
    {
      var i :| 0 <= i < |items| && items[i] == Some(x);
    }
  }

  /** The titles of one media type for the given filters. */
  function Titles(f: Filters, selectedServices: seq<string>, isTV: bool,
                  discover: (bool, Params, int) -> seq<DiscoverResult>,
                  details: (bool, int) -> TitleDetails): (r: seq<CatalogItem>)
    ensures |r| <= PerType(f.contentType)
  {
    Fetched(Discovered(f.contentType, isTV, DiscoverParams(f, selectedServices, isTV), discover),
            isTV, selectedServices, details)
  }

  /** Alternating movie/TV merge, as a reference definition: first movie,
      first show, second movie, ..., then what is left of the longer list. */
  function Interleaved<T>(a: seq<T>, b: seq<T>): (r: seq<T>)
    ensures |r| == |a| + |b|
  {
    if a == [] then b
    else if b == [] then a
    else [a[0], b[0]] + Interleaved(a[1..], b[1..])
  }

  lemma {:induction false} InterleavedSnocBoth<T>(a: seq<T>, b: seq<T>, x: T, y: T)
    requires |a| == |b|
    ensures Interleaved(a + [x], b + [y]) == Interleaved(a, b) + [x, y]
  {
    if a != [] {
      assert (a + [x])[1..] == a[1..] + [x];
      assert (b + [y])[1..] == b[1..] + [y];
      InterleavedSnocBoth(a[1..], b[1..], x, y);
    }
  }

  lemma {:induction false} InterleavedSnocLeft<T>(a: seq<T>, b: seq<T>, x: T)
    requires |b| <= |a|
    ensures Interleaved(a + [x], b) == Interleaved(a, b) + [x]
  {
    if b != [] {
      assert (a + [x])[1..] == a[1..] + [x];
      InterleavedSnocLeft(a[1..], b[1..], x);
    }
  }

  lemma {:induction false} InterleavedSnocRight<T>(a: seq<T>, b: seq<T>, y: T)
    requires |a| <= |b|
    ensures Interleaved(a, b + [y]) == Interleaved(a, b) + [y]
  {
    if a != [] {
      assert (b + [y])[1..] == b[1..] + [y];
      InterleavedSnocRight(a[1..], b[1..], y);
    } else {
      assert Interleaved(a, b + [y]) == b + [y];
    }
  }

  /** The merge alternates movie, show, movie, show while both lists last. */
  lemma InterleavedAlternates<T>(a: seq<T>, b: seq<T>)
    ensures forall i :: 0 <= i < |a| && i < |b| ==>
      Interleaved(a, b)[2 * i] == a[i] && Interleaved(a, b)[2 * i + 1] == b[i]
  {
    forall i | 0 <= i < |a| && i < |b|
      ensures Interleaved(a, b)[2 * i] == a[i] && Interleaved(a, b)[2 * i + 1] == b[i]
    {
      InterleavedAt(a, b, i);
    }
  }

  lemma {:induction false} InterleavedAt<T>(a: seq<T>, b: seq<T>, i: nat)
    requires i < |a| && i < |b|
    ensures Interleaved(a, b)[2 * i] == a[i] && Interleaved(a, b)[2 * i + 1] == b[i]
  {
    assert Interleaved(a, b) == [a[0], b[0]] + Interleaved(a[1..], b[1..]);
    if i > 0 {
      InterleavedAt(a[1..], b[1..], i - 1);
    }
  }

  /** After the shorter list runs out, the rest of the longer one follows
      in order. */
  lemma {:induction false} InterleavedTail<T>(a: seq<T>, b: seq<T>)
    ensures |a| <= |b| ==> Interleaved(a, b)[2 * |a|..] == b[|a|..]
    ensures |b| <= |a| ==> Interleaved(a, b)[2 * |b|..] == a[|b|..]
  {
    if a != [] && b != [] {
      InterleavedTail(a[1..], b[1..]);
      var rest := Interleaved(a[1..], b[1..]);
      assert Interleaved(a, b)[2..] == rest;
    }
  }

  /** The merge loses and invents nothing. */
  lemma {:induction false} InterleavedPermutes<T>(a: seq<T>, b: seq<T>)
    ensures multiset(Interleaved(a, b)) == multiset(a) + multiset(b)
  {
    if a != [] && b != [] {
      var rest := Interleaved(a[1..], b[1..]);
      InterleavedPermutes(a[1..], b[1..]);
      PairConsPermutes(a, b, rest);
      assert Interleaved(a, b) == [a[0], b[0]] + rest;
    }
  }

  lemma PairConsPermutes<T>(a: seq<T>, b: seq<T>, rest: seq<T>)
    requires a != [] && b != []
    requires multiset(rest) == multiset(a[1..]) + multiset(b[1..])
    ensures multiset([a[0], b[0]] + rest) == multiset(a) + multiset(b)
  {
    assert a == [a[0]] + a[1..];
    assert b == [b[0]] + b[1..];
  }

  method Interleave<T>(movies: seq<T>, tvShows: seq<T>) returns (catalog: seq<T>)
    ensures catalog == Interleaved(movies, tvShows)
  {
    catalog := [];
    var maxLen := if |movies| >= |tvShows| then |movies| else |tvShows|;
    var i := 0;
    while i < maxLen
      invariant 0 <= i <= maxLen
      invariant catalog == MergedUpTo(movies, tvShows, i)
    {
      InterleavedStep(movies, tvShows, i);
      if i < |movies| {
        catalog := catalog + [movies[i]];
      }
      if i < |tvShows| {
        catalog := catalog + [tvShows[i]];
      }
      i := i + 1;
    }
    assert movies[..Min(i, |movies|)] == movies && tvShows[..Min(i, |tvShows|)] == tvShows;
  }

  /** The merge of the first `i` movies and the first `i` shows. */
  function MergedUpTo<T>(movies: seq<T>, tvShows: seq<T>, i: nat): seq<T> {
    Interleaved(movies[..Min(i, |movies|)], tvShows[..Min(i, |tvShows|)])
  }

  /** One round of the merge loop: the next movie, then the next show,
      each while its list lasts. */
  lemma InterleavedStep<T>(movies: seq<T>, tvShows: seq<T>, i: nat)
    requires i < |movies| || i < |tvShows|
    ensures i < |movies| && i < |tvShows| ==>
      MergedUpTo(movies, tvShows, i + 1) == MergedUpTo(movies, tvShows, i) + [movies[i], tvShows[i]]
    ensures i < |movies| && i >= |tvShows| ==>
      MergedUpTo(movies, tvShows, i + 1) == MergedUpTo(movies, tvShows, i) + [movies[i]]
    ensures i >= |movies| && i < |tvShows| ==>
      MergedUpTo(movies, tvShows, i + 1) == MergedUpTo(movies, tvShows, i) + [tvShows[i]]
  {
    var a, b := movies[..Min(i, |movies|)], tvShows[..Min(i, |tvShows|)];
    if i < |movies| {
      assert movies[..Min(i + 1, |movies|)] == a + [movies[i]];
    } else {
      assert movies[..Min(i + 1, |movies|)] == a;
    }
    if i < |tvShows| {
      assert tvShows[..Min(i + 1, |tvShows|)] == b + [tvShows[i]];
    } else {
      assert tvShows[..Min(i + 1, |tvShows|)] == b;
    }
    if i < |movies| && i < |tvShows| {
      InterleavedSnocBoth(a, b, movies[i], tvShows[i]);
    } else if i < |movies| {
      InterleavedSnocLeft(a, b, movies[i]);
    } else {
      InterleavedSnocRight(a, b, tvShows[i]);
    }
  }

  function Min(x: int, y: int): int {
    if x <= y then x else y
  }

  /** `catalog.map((item, i) => ({ ...item, displayOrder: i + 1 }))`. */
  function Renumbered(items: seq<CatalogItem>): (r: seq<CatalogItem>)
    ensures |r| == |items|
    ensures forall i :: 0 <= i < |r| ==> r[i] == items[i].(displayOrder := i + 1)
  {
    seq(|items|, i requires 0 <= i < |items| => items[i].(displayOrder := i + 1))
  }

  /** The catalogue before the fallback: the movies, the shows, or both
      merged alternately. */
  function PrimaryCatalog(f: Filters, selectedServices: seq<string>,
                          discover: (bool, Params, int) -> seq<DiscoverResult>,
                          details: (bool, int) -> TitleDetails): seq<CatalogItem>
  {
    var movies := if IncludesMovies(f.contentType) then Titles(f, selectedServices, false, discover, details) else [];
    var tvShows := if IncludesTv(f.contentType) then Titles(f, selectedServices, true, discover, details) else [];
    if f.contentType == Both then Interleaved(movies, tvShows)
    else if IncludesMovies(f.contentType) then movies
    else tvShows
  }

  /** The fallback's hits: the same queries with the explicit genre picks
      dropped (a mood still applies), movie hits first. */
  function FallbackResults(f: Filters, selectedServices: seq<string>,
                           discover: (bool, Params, int) -> seq<DiscoverResult>): seq<DiscoverResult>
  {
    var g := f.(genres := []);
    (if IncludesMovies(f.contentType) then Discovered(f.contentType, false, DiscoverParams(g, selectedServices, false), discover) else [])
      + (if IncludesTv(f.contentType) then Discovered(f.contentType, true, DiscoverParams(g, selectedServices, true), discover) else [])
  }

  /** Each fallback hit fetched as a movie or a show according to its own
      record, numbered by position. */
  function FallbackItems(results: seq<DiscoverResult>, selectedServices: seq<string>,
                         details: (bool, int) -> TitleDetails): (r: seq<Option<CatalogItem>>)
    ensures |r| == |results|
    ensures forall i :: 0 <= i < |r| && r[i].Some? ==> Streamable(r[i].value, selectedServices)
  {
    seq(|results|, i requires 0 <= i < |results| =>
      DetailsToItem(details(!results[i].hasTitle, results[i].id), selectedServices, i + 1))
  }

  function FallbackCatalog(f: Filters, selectedServices: seq<string>,
                           discover: (bool, Params, int) -> seq<DiscoverResult>,
                           details: (bool, int) -> TitleDetails): seq<CatalogItem>
  {
    Present(FallbackItems(FallbackResults(f, selectedServices, discover), selectedServices, details))
  }

  /** The fallback does not depend on the explicit genre picks. */
  lemma FallbackIgnoresGenrePicks(f: Filters, genres: seq<string>, selectedServices: seq<string>,
                                  discover: (bool, Params, int) -> seq<DiscoverResult>,
                                  details: (bool, int) -> TitleDetails)
    ensures FallbackCatalog(f.(genres := genres), selectedServices, discover, details)
         == FallbackCatalog(f, selectedServices, discover, details)
  {
    assert f.(genres := genres).(genres := []) == f.(genres := []);
  }

  /** Every title of the first attempt streams on a selected service, and
      there are at most 20. */
  lemma PrimaryAvailableAndBounded(f: Filters, selectedServices: seq<string>,
                                   discover: (bool, Params, int) -> seq<DiscoverResult>,
                                   details: (bool, int) -> TitleDetails)
    ensures var p := PrimaryCatalog(f, selectedServices, discover, details);
      |p| <= 20 && forall x :: x in p ==> Streamable(x, selectedServices)
  {
    var movies := if IncludesMovies(f.contentType) then Titles(f, selectedServices, false, discover, details) else [];
    var tvShows := if IncludesTv(f.contentType) then Titles(f, selectedServices, true, discover, details) else [];
    if f.contentType == Both {
      InterleavedPermutes(movies, tvShows);
      assert forall x :: x in Interleaved(movies, tvShows) ==> x in multiset(movies) + multiset(tvShows);
    }
  }

  /** Every title of the fallback streams on a selected service, and there
      are at most 20. */
  lemma FallbackAvailableAndBounded(f: Filters, selectedServices: seq<string>,
                                    discover: (bool, Params, int) -> seq<DiscoverResult>,
                                    details: (bool, int) -> TitleDetails)
    ensures var b := FallbackCatalog(f, selectedServices, discover, details);
      |b| <= 20 && forall x :: x in b ==> Streamable(x, selectedServices)
  {
    var items := FallbackItems(FallbackResults(f, selectedServices, discover), selectedServices, details);
    PresentItemsAvailable(items, selectedServices);
  }

  /** The first attempt: the movie and TV queries, fetched and merged. */
  method FetchPrimary(f: Filters, selectedServices: seq<string>,
                      discover: (bool, Params, int) -> seq<DiscoverResult>,
                      details: (bool, int) -> TitleDetails)
    returns (r: Result<seq<CatalogItem>>)
    ensures r.Err? <==> IncludesMovies(f.contentType) && f.certifications.None?
    ensures r.Err? ==> r.message == TypeErrorMessage
    ensures r.Ok? ==> r.value == PrimaryCatalog(f, selectedServices, discover, details)
  {
    var ct := f.contentType;
    var includeMovies := ct == Movies || ct == Both;
    var includeTV := ct == Tv || ct == Both;
    var perType := if ct == Both then 10 else 20;

    var movieResults: seq<DiscoverResult> := [];
    var tvResults: seq<DiscoverResult> := [];
    if includeMovies {
      var params := BuildDiscoverParams(f, selectedServices, false);
      if params.Err? {
        return Err(params.message);
      }
      movieResults := Take(discover(false, params.value, 1) + discover(false, params.value, 2), perType);
    }
    if includeTV {
      var params := BuildDiscoverParams(f, selectedServices, true);
      tvResults := Take(discover(true, params.value, 1) + discover(true, params.value, 2), perType);
    }

    var movies := Fetched(movieResults, false, selectedServices, details);
    var tvShows := Fetched(tvResults, true, selectedServices, details);
    var catalog: seq<CatalogItem>;
    if ct == Both {
      catalog := Interleave(movies, tvShows);
    } else {
      catalog := if includeMovies then movies else tvShows;
    }
    return Ok(catalog);
  }

  /** The retry: the same queries without the explicit genre picks; each hit
      is fetched as a movie or a show according to its own record. */
  method FetchFallback(f: Filters, selectedServices: seq<string>,
                       discover: (bool, Params, int) -> seq<DiscoverResult>,
                       details: (bool, int) -> TitleDetails)
    returns (catalog: seq<CatalogItem>)
    requires IncludesMovies(f.contentType) ==> f.certifications.Some?
    ensures catalog == FallbackCatalog(f, selectedServices, discover, details)
  {
    var ct := f.contentType;
    var perType := if ct == Both then 10 else 20;
    var fallbackFilters := f.(genres := []);
    var fallbackResults: seq<DiscoverResult> := [];
    if ct == Movies || ct == Both {
      var params := BuildDiscoverParams(fallbackFilters, selectedServices, false);
      fallbackResults := fallbackResults + Take(discover(false, params.value, 1) + discover(false, params.value, 2), perType);
    }
    if ct == Tv || ct == Both {
      var params := BuildDiscoverParams(fallbackFilters, selectedServices, true);
      fallbackResults := fallbackResults + Take(discover(true, params.value, 1) + discover(true, params.value, 2), perType);
    }
    assert fallbackResults == FallbackResults(f, selectedServices, discover);
    catalog := Present(FallbackItems(fallbackResults, selectedServices, details));
  }

  /** What buildCatalog yields: the TypeError of a movie query over
      undefined certifications, or the first attempt renumbered, or, when
      that is empty, the fallback renumbered. */
  function CatalogResult(f: Filters, selectedServices: seq<string>,
                         discover: (bool, Params, int) -> seq<DiscoverResult>,
                         details: (bool, int) -> TitleDetails): Result<seq<CatalogItem>>
  {
    if IncludesMovies(f.contentType) && f.certifications.None? then Err(TypeErrorMessage)
    else
      var primary := PrimaryCatalog(f, selectedServices, discover, details);
      Ok(Renumbered(if |primary| > 0 then primary else FallbackCatalog(f, selectedServices, discover, details)))
  }

  /** What buildCatalog promises: it throws exactly when a movie query
      reads undefined certifications; otherwise every title streams on a
      selected service, display orders run 1..n, there are at most 20
      titles, and the genre-free fallback is used exactly when the first
      attempt is empty. */
  lemma CatalogResultSpec(f: Filters, selectedServices: seq<string>,
                          discover: (bool, Params, int) -> seq<DiscoverResult>,
                          details: (bool, int) -> TitleDetails)
    ensures CatalogResult(f, selectedServices, discover, details).Err? <==>
      IncludesMovies(f.contentType) && f.certifications.None?
    ensures CatalogResult(f, selectedServices, discover, details).Ok? ==>
      |CatalogResult(f, selectedServices, discover, details).value| <= 20
    ensures CatalogResult(f, selectedServices, discover, details).Ok? ==>
      forall i :: 0 <= i < |CatalogResult(f, selectedServices, discover, details).value| ==>
        && CatalogResult(f, selectedServices, discover, details).value[i].displayOrder == i + 1
        && |CatalogResult(f, selectedServices, discover, details).value[i].availableOn| > 0
        && (forall s :: s in CatalogResult(f, selectedServices, discover, details).value[i].availableOn ==> s in selectedServices)
    ensures CatalogResult(f, selectedServices, discover, details).Ok? ==>
      (|PrimaryCatalog(f, selectedServices, discover, details)| > 0 <==>
       |CatalogResult(f, selectedServices, discover, details).value| > 0 &&
       CatalogResult(f, selectedServices, discover, details).value ==
         Renumbered(PrimaryCatalog(f, selectedServices, discover, details)))
  {
    if !(IncludesMovies(f.contentType) && f.certifications.None?) {
      var primary := PrimaryCatalog(f, selectedServices, discover, details);
      var fallback := FallbackCatalog(f, selectedServices, discover, details);
      PrimaryAvailableAndBounded(f, selectedServices, discover, details);
      FallbackAvailableAndBounded(f, selectedServices, discover, details);
      var source := if |primary| > 0 then primary else fallback;
      var catalog := Renumbered(source);
      assert CatalogResult(f, selectedServices, discover, details) == Ok(catalog);
      forall i | 0 <= i < |catalog|
        ensures catalog[i].displayOrder == i + 1
        ensures |catalog[i].availableOn| > 0
        ensures forall s :: s in catalog[i].availableOn ==> s in selectedServices
      {
        assert catalog[i].availableOn == source[i].availableOn && source[i] in source;
      }
    }
  }

  /** buildCatalog: the first attempt, then the genre-free fallback when it
      came back empty, renumbered; the TypeError of a movie query on
      undefined certifications propagates. */
  method BuildCatalog(f: Filters, selectedServices: seq<string>,
                      discover: (bool, Params, int) -> seq<DiscoverResult>,
                      details: (bool, int) -> TitleDetails)
    returns (r: Result<seq<CatalogItem>>)
    ensures r.Err? <==> IncludesMovies(f.contentType) && f.certifications.None?
    ensures r.Err? ==> r.message == TypeErrorMessage
    ensures r == CatalogResult(f, selectedServices, discover, details)
  {
    var primary := FetchPrimary(f, selectedServices, discover, details);
    if primary.Err? {
      return Err(primary.message);
    }
    var catalog := Renumbered(primary.value);
    if |catalog| == 0 {
      var fallback := FetchFallback(f, selectedServices, discover, details);
      catalog := Renumbered(fallback);
    }
    return Ok(catalog);
  }
}
