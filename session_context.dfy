/** lib/SessionContext.tsx: the app-wide session state every screen reads
    and writes. Each setter replaces one field of the state; `updateFilter`
    replaces one field of the filters. React's batching of state updates
    is not modelled: each setter call takes effect at once. */
module SessionContext {
  import opened Wrappers
  import opened Lists
  import opened Types
  import Tmdb

  datatype SessionState = SessionState(
    sessionCode: Option<string>,
    sessionId: Option<Id>,
    participantId: Option<Id>,
    matchThreshold: real,
    isHost: bool,
    nickname: string,
    selectedServices: seq<string>,
    filters: Filters,
    currentCardIndex: int)

  /** The default filters: no genres, mood or rating; runtime and release
      year both the plain string 'any'; movies only; certifications and
      animation absent. */
  const DefaultFilters := Filters([], None, Some("any"), YearText("any"), None, None, None, Movies)

  /** The state on mount and after `resetSession`. */
  const InitialState := SessionState(None, None, None, 0.5, false, "", [], DefaultFilters, 0)

  /** `updateFilter(key, value)`: one key of `SessionFilters` and its new value. */
  datatype FilterUpdate =
    | SetGenres(genres: seq<string>)
    | SetMood(mood: Option<string>)
    | SetRuntimeRange(runtimeRange: Option<string>)
    | SetReleaseYearRange(releaseYearRange: YearRange)
    | SetMinRating(minRating: Option<int>)
    | SetCertifications(certifications: Option<seq<string>>)
    | SetAnimation(animation: Option<Animation>)
    | SetContentType(contentType: ContentType)

  datatype FilterKey =
    GenresKey | MoodKey | RuntimeKey | YearKey | RatingKey | CertificationsKey | AnimationKey | ContentTypeKey

  function KeyOf(u: FilterUpdate): FilterKey {
    match u
    case SetGenres(_) => GenresKey
    case SetMood(_) => MoodKey
    case SetRuntimeRange(_) => RuntimeKey
    case SetReleaseYearRange(_) => YearKey
    case SetMinRating(_) => RatingKey
    case SetCertifications(_) => CertificationsKey
    case SetAnimation(_) => AnimationKey
    case SetContentType(_) => ContentTypeKey
  }

  /** `a` and `b` agree on every key but `k`. */
  predicate SameExcept(a: Filters, b: Filters, k: FilterKey) {
    && (k != GenresKey ==> a.genres == b.genres)
    && (k != MoodKey ==> a.mood == b.mood)
    && (k != RuntimeKey ==> a.runtimeRange == b.runtimeRange)
    && (k != YearKey ==> a.releaseYearRange == b.releaseYearRange)
    && (k != RatingKey ==> a.minRating == b.minRating)
    && (k != CertificationsKey ==> a.certifications == b.certifications)
    && (k != AnimationKey ==> a.animation == b.animation)
    && (k != ContentTypeKey ==> a.contentType == b.contentType)
  }

  /** The key the update names holds the update's value in `f`. */
  predicate Holds(f: Filters, u: FilterUpdate) {
    match u
    case SetGenres(g) => f.genres == g
    case SetMood(m) => f.mood == m
    case SetRuntimeRange(r) => f.runtimeRange == r
    case SetReleaseYearRange(y) => f.releaseYearRange == y
    case SetMinRating(m) => f.minRating == m
    case SetCertifications(c) => f.certifications == c
    case SetAnimation(a) => f.animation == a
    case SetContentType(t) => f.contentType == t
  }

  /** `{ ...filters, [key]: value }`: the named key takes the value and
      every other key keeps its own. */
  function ApplyFilterUpdate(f: Filters, u: FilterUpdate): (r: Filters)
    ensures Holds(r, u)
    ensures SameExcept(f, r, KeyOf(u))
  {
    match u
    case SetGenres(g) => f.(genres := g)
    case SetMood(m) => f.(mood := m)
    case SetRuntimeRange(r) => f.(runtimeRange := r)
    case SetReleaseYearRange(y) => f.(releaseYearRange := y)
    case SetMinRating(m) => f.(minRating := m)
    case SetCertifications(c) => f.(certifications := c)
    case SetAnimation(a) => f.(animation := a)
    case SetContentType(t) => f.(contentType := t)
  }

  /** The spread-and-override is determined by its two guarantees: any
      filters that hold the update and otherwise agree with `f` are the
      result. */
  lemma FilterUpdateIsDetermined(f: Filters, u: FilterUpdate, g: Filters)
    requires Holds(g, u) && SameExcept(f, g, KeyOf(u))
    ensures g == ApplyFilterUpdate(f, u)
  {
    match u
    case SetGenres(_) =>
    case SetMood(_) =>
    case SetRuntimeRange(_) =>
    case SetReleaseYearRange(_) =>
    case SetMinRating(_) =>
    case SetCertifications(_) =>
    case SetAnimation(_) =>
    case SetContentType(_) =>
  }

  /** Updates of different keys commute, and repeating an update changes
      nothing. */
  lemma FilterUpdatesCommute(f: Filters, u: FilterUpdate, v: FilterUpdate)
    requires KeyOf(u) != KeyOf(v)
    ensures ApplyFilterUpdate(ApplyFilterUpdate(f, u), v) == ApplyFilterUpdate(ApplyFilterUpdate(f, v), u)
    ensures ApplyFilterUpdate(ApplyFilterUpdate(f, u), u) == ApplyFilterUpdate(f, u)
  {
  }

  /** With the default filters a movie query reads undefined certifications
      and throws, while a TV query sends no runtime and no air-date bounds
      (the plain string 'any' matches no year option). */
  lemma DefaultFiltersQueries(selectedServices: seq<string>)
    ensures Tmdb.ParamsThrow(DefaultFilters, false)
    ensures !Tmdb.ParamsThrow(DefaultFilters, true)
    ensures Tmdb.ParamValue(DefaultFilters, selectedServices, true, Tmdb.AirDateGte) == None
    ensures Tmdb.ParamValue(DefaultFilters, selectedServices, true, Tmdb.AirDateLte) == None
    ensures Tmdb.ParamValue(DefaultFilters, selectedServices, true, Tmdb.RuntimeGte) == None
    ensures Tmdb.ParamValue(DefaultFilters, selectedServices, true, Tmdb.WithGenres) == None
  {
    Tmdb.NoPicksNoMoodNoGenres(DefaultFilters, true);
  }

  /** `nickname || fallback`: an empty nickname falls back. */
  function DisplayName(nickname: string, fallback: string): (r: string)
    ensures nickname != "" ==> r == nickname
    ensures nickname == "" ==> r == fallback
  {
    if nickname == "" then fallback else nickname
  }

  class SessionProvider {
    var state: SessionState

    constructor()
      ensures state == InitialState
    {
      state := InitialState;
    }

    method SetSessionCode(code: Option<string>)
      modifies this
      ensures state == old(state).(sessionCode := code)
    {
      state := state.(sessionCode := code);
    }

    method SetSessionId(id: Option<Id>)
      modifies this
      ensures state == old(state).(sessionId := id)
    {
      state := state.(sessionId := id);
    }

    method SetParticipantId(id: Option<Id>)
      modifies this
      ensures state == old(state).(participantId := id)
    {
      state := state.(participantId := id);
    }

    method SetMatchThreshold(threshold: real)
      modifies this
      ensures state == old(state).(matchThreshold := threshold)
    {
      state := state.(matchThreshold := threshold);
    }

    method SetIsHost(isHost: bool)
      modifies this
      ensures state == old(state).(isHost := isHost)
    {
      state := state.(isHost := isHost);
    }

    method SetNickname(name: string)
      modifies this
      ensures state == old(state).(nickname := name)
    {
      state := state.(nickname := name);
    }

    method SetSelectedServices(services: seq<string>)
      modifies this
      ensures state == old(state).(selectedServices := services)
    {
      state := state.(selectedServices := services);
    }

    /** toggleService: the service is selected afterwards exactly when it
        was not before; every other service keeps its selection and its
        place. */
    method ToggleService(serviceId: string)
      modifies this
      ensures state == old(state).(selectedServices := state.selectedServices)
      ensures serviceId in state.selectedServices <==> serviceId !in old(state).selectedServices
      ensures forall s :: s != serviceId ==> (s in state.selectedServices <==> s in old(state).selectedServices)
      ensures Without(state.selectedServices, serviceId) == Without(old(state).selectedServices, serviceId)
    {
      ToggleKeepsOthersInOrder(state.selectedServices, serviceId);
      state := state.(selectedServices := Toggle(state.selectedServices, serviceId));
    }

    method SetFilters(filters: Filters)
      modifies this
      ensures state == old(state).(filters := filters)
    {
      state := state.(filters := filters);
    }

    /** updateFilter: one key of the filters changes, nothing else. */
    method UpdateFilter(u: FilterUpdate)
      modifies this
      ensures state == old(state).(filters := state.filters)
      ensures Holds(state.filters, u) && SameExcept(old(state).filters, state.filters, KeyOf(u))
    {
      state := state.(filters := ApplyFilterUpdate(state.filters, u));
    }

    method SetCurrentCardIndex(index: int)
      modifies this
      ensures state == old(state).(currentCardIndex := index)
    {
      state := state.(currentCardIndex := index);
    }

    /** resetSession: back to the state on mount, default filters included. */
    method ResetSession()
      modifies this
      ensures state == InitialState
    {
      state := InitialState;
    }
  }
}
