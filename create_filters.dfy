/** app/create/filters.tsx: the host's filter screen. Option presses turn
    into `updateFilter` calls on the session context; "Generate Code"
    creates the session, builds and seeds its catalogue and joins the host.
    Haptics, error reporting, alerts and navigation are left out: the
    outcome of a press of "Generate Code" says which alert or screen
    follows. */
module CreateFilters {
  import opened Wrappers
  import opened Lists
  import opened Types
  import opened SessionContext
  import Tmdb
  import SessionService
  import Constants

  /** A press on one of the screen's option buttons. */
  datatype Press =
    | ContentTypePress(contentType: ContentType)
    | GenrePress(genre: string)
    | AnimationPress(animation: Animation)
    | MoodPress(mood: string)
    | RuntimePress(runtime: string)
    | YearPress(year: string)
    | RatingPress(rating: int)
    | CertificationPress(certification: string)

  function PressKey(p: Press): FilterKey {
    match p
    case ContentTypePress(_) => ContentTypeKey
    case GenrePress(_) => GenresKey
    case AnimationPress(_) => AnimationKey
    case MoodPress(_) => MoodKey
    case RuntimePress(_) => RuntimeKey
    case YearPress(_) => YearKey
    case RatingPress(_) => RatingKey
    case CertificationPress(_) => CertificationsKey
  }

  /** `needle` occurs in `haystack` at position `i`. */
  predicate OccursAt(haystack: string, needle: string, i: int) {
    0 <= i && i + |needle| <= |haystack| && haystack[i..i + |needle|] == needle
  }

  /** String `includes`: `needle` occurs in `haystack` as a substring. */
  predicate Contains(haystack: string, needle: string) {
    exists i | 0 <= i <= |haystack| :: OccursAt(haystack, needle, i)
  }

  /** `[...text]`: a string spread into its one-character strings. */
  function Chars(text: string): (r: seq<string>)
    ensures |r| == |text|
    ensures forall i :: 0 <= i < |r| ==> r[i] == [text[i]]
  {
    Map(text, (c: char) => [c])
  }

  /** The TypeErrors a press can raise, in the V8 engine's wording: `filter`
      called on the plain-string year range, and the render-time
      `includes` on an absent certification list. */
  const FilterIsNotAFunction := "filters.releaseYearRange.filter is not a function"
  const IncludesOfUndefined := "Cannot read properties of undefined (reading 'includes')"

  /** A release-year press. The selection test is `includes`, which on the
      plain string of the default filters is a substring test; a selected
      option is then removed with `filter`, which strings lack, and an
      unselected one is appended after the string's characters. */
  function YearToggle(range: YearRange, id: string): (r: Result<YearRange>)
    ensures r.Err? <==> range.YearText? && Contains(range.text, id)
    ensures range.YearList? ==> r == Ok(YearList(Toggle(range.ids, id)))
    ensures range.YearText? && r.Ok? ==>
      r.value.YearList? && |r.value.ids| == |range.text| + 1 && r.value.ids[|range.text|] == id
    ensures range.YearText? && r.Ok? ==> r.value.ids[..|range.text|] == Chars(range.text)
  {
    match range
    case YearList(ids) => Ok(YearList(Toggle(ids, id)))
    case YearText(text) =>
      if Contains(text, id) then Err(FilterIsNotAFunction)
      else
        assert (Chars(text) + [id])[..|text|] == Chars(text);
        Ok(YearList(Chars(text) + [id]))
  }

  /** `current === pressed ? null : pressed`: the animation and mood
      buttons select a value or clear it. */
  function ToggleChoice<T(==)>(current: Option<T>, pressed: T): (r: Option<T>)
    ensures r == Some(pressed) <==> current != Some(pressed)
    ensures r.None? <==> current == Some(pressed)
  {
    if current == Some(pressed) then None else Some(pressed)
  }

  /** The `updateFilter` call a press makes, or the TypeError it throws
      first. Only the release-year press on a plain string and the
      certification press on an absent list can throw. */
  function PressUpdate(f: Filters, p: Press): (r: Result<FilterUpdate>)
    ensures r.Err? <==>
      || (p.YearPress? && f.releaseYearRange.YearText? && Contains(f.releaseYearRange.text, p.year))
      || (p.CertificationPress? && f.certifications.None?)
    ensures r.Ok? ==> KeyOf(r.value) == PressKey(p)
  {
    match p
    case ContentTypePress(t) => Ok(SetContentType(t))
    case GenrePress(g) => Ok(SetGenres(Toggle(f.genres, g)))
    case AnimationPress(a) => Ok(SetAnimation(ToggleChoice(f.animation, a)))
    case MoodPress(m) => Ok(SetMood(ToggleChoice(f.mood, m)))
    case RuntimePress(r) => Ok(SetRuntimeRange(Some(r)))
    case YearPress(y) =>
      (match YearToggle(f.releaseYearRange, y)
       case Ok(range) => Ok(SetReleaseYearRange(range))
       case Err(message) => Err(message))
    case RatingPress(v) => Ok(SetMinRating(Some(v)))
    case CertificationPress(c) =>
      if f.certifications.None? then Err(IncludesOfUndefined)
      else Ok(SetCertifications(Some(Toggle(f.certifications.value, c))))
  }

  /** The filters after a press, or the error it throws. */
  function Pressed(f: Filters, p: Press): (r: Result<Filters>)
    ensures r.Err? <==> PressUpdate(f, p).Err?
    ensures r.Ok? ==> SameExcept(f, r.value, PressKey(p))
  {
    match PressUpdate(f, p)
    case Ok(u) => Ok(ApplyFilterUpdate(f, u))
    case Err(message) => Err(message)
  }

  /** What a press writes under its own key: a toggling press flips the
      pressed option's membership and leaves the other options in order,
      a choice press selects or clears its value, a setting press holds
      the pressed value. */
  lemma PressWritesItsValue(f: Filters, p: Press)
    ensures p.ContentTypePress? ==>
      Pressed(f, p).Ok? && Pressed(f, p).value.contentType == p.contentType
    ensures p.RuntimePress? ==>
      Pressed(f, p).Ok? && Pressed(f, p).value.runtimeRange == Some(p.runtime)
    ensures p.RatingPress? ==>
      Pressed(f, p).Ok? && Pressed(f, p).value.minRating == Some(p.rating)
    ensures p.AnimationPress? ==>
      Pressed(f, p).Ok? && Pressed(f, p).value.animation == ToggleChoice(f.animation, p.animation)
    ensures p.MoodPress? ==>
      Pressed(f, p).Ok? && Pressed(f, p).value.mood == ToggleChoice(f.mood, p.mood)
    ensures p.GenrePress? ==>
      && Pressed(f, p).Ok?
      && (p.genre in Pressed(f, p).value.genres <==> p.genre !in f.genres)
      && Without(Pressed(f, p).value.genres, p.genre) == Without(f.genres, p.genre)
    ensures p.YearPress? && f.releaseYearRange.YearList? ==>
      && Pressed(f, p).Ok?
      && Pressed(f, p).value.releaseYearRange.YearList?
      && (p.year in Pressed(f, p).value.releaseYearRange.ids <==> p.year !in f.releaseYearRange.ids)
      && Without(Pressed(f, p).value.releaseYearRange.ids, p.year) == Without(f.releaseYearRange.ids, p.year)
    ensures p.CertificationPress? && f.certifications.Some? ==>
      && Pressed(f, p).Ok?
      && Pressed(f, p).value.certifications.Some?
      && (p.certification in Pressed(f, p).value.certifications.value <==> p.certification !in f.certifications.value)
      && Without(Pressed(f, p).value.certifications.value, p.certification) == Without(f.certifications.value, p.certification)
  {
    match p
    case GenrePress(g) => ToggleKeepsOthersInOrder(f.genres, g);
    case YearPress(y) =>
      if f.releaseYearRange.YearList? {
        ToggleKeepsOthersInOrder(f.releaseYearRange.ids, y);
      }
    case CertificationPress(c) =>
      if f.certifications.Some? {
        ToggleKeepsOthersInOrder(f.certifications.value, c);
      }
    case _ =>
  }

  /** A toggling press pressed twice restores the filters, when the first
      press selected its value. */
  lemma TogglePressTwiceRestores(f: Filters, p: Press)
    requires p.GenrePress? ==> p.genre !in f.genres
    requires p.AnimationPress? ==> f.animation.None?
    requires p.MoodPress? ==> f.mood.None?
    requires p.YearPress? ==> f.releaseYearRange.YearList? && p.year !in f.releaseYearRange.ids
    requires p.CertificationPress? ==> f.certifications.Some? && p.certification !in f.certifications.value
    requires p.GenrePress? || p.AnimationPress? || p.MoodPress? || p.YearPress? || p.CertificationPress?
    ensures Pressed(f, p).Ok? && Pressed(Pressed(f, p).value, p) == Ok(f)
  {
    match p
    case GenrePress(g) => ToggleTwiceRestores(f.genres, g);
    case YearPress(y) => ToggleTwiceRestores(f.releaseYearRange.ids, y);
    case CertificationPress(c) => ToggleTwiceRestores(f.certifications.value, c);
    case AnimationPress(_) =>
    case MoodPress(_) =>
  }

  /** A press that sets a value (content type, runtime, rating) does the
      same when pressed again. */
  lemma SettingPressIsIdempotent(f: Filters, p: Press)
    requires p.ContentTypePress? || p.RuntimePress? || p.RatingPress?
    ensures Pressed(f, p).Ok? && Pressed(Pressed(f, p).value, p) == Pressed(f, p)
  {
  }

  /** With the default filters, a release-year press (every year option id
      is longer than 'any') makes the list `['a', 'n', 'y', id]`, which no
      discovery query turns into a date bound: the year choice is lost. */
  lemma DefaultYearPressIsIgnored(id: string, selectedServices: seq<string>, isTV: bool)
    requires |id| > 3
    ensures Pressed(DefaultFilters, YearPress(id)) == Ok(DefaultFilters.(releaseYearRange := YearList(["a", "n", "y", id])))
    ensures var f := Pressed(DefaultFilters, YearPress(id)).value;
      && Tmdb.ParamValue(f, selectedServices, isTV, Tmdb.DateGteKey(isTV)) == None
      && Tmdb.ParamValue(f, selectedServices, isTV, Tmdb.DateLteKey(isTV)) == None
  {
    assert !Contains("any", id);
    assert Chars("any") + [id] == ["a", "n", "y", id];
    var f := DefaultFilters.(releaseYearRange := YearList(["a", "n", "y", id]));
    assert Pressed(DefaultFilters, YearPress(id)) == Ok(f);
    Tmdb.ListYearSendsNoDates(f, selectedServices, isTV);
  }

  /** Every year option other than 'any' is longer than 'any'. */
  lemma YearOptionsOutgrowAny()
    ensures forall i :: 0 <= i < |Constants.YearOptionIds| && Constants.YearOptionIds[i] != "any" ==> |Constants.YearOptionIds[i]| > 3
  {
  }

  /** Which alert or screen follows a press of "Generate Code". */
  datatype CreateOutcome =
    | Ignored
    | Failed(message: string)
    | NoResults(sessionId: Id)
    | Created(sessionId: Id, participantId: Id)

  class FiltersScreen {
    const ctx: SessionProvider
    var creating: bool

    constructor(ctx: SessionProvider)
      ensures this.ctx == ctx && !creating
    {
      this.ctx := ctx;
      creating := false;
    }

    /** An option press: the context's filters change as `PressUpdate`
        says, or not at all when the press throws. */
    method OnPress(p: Press) returns (r: Result<FilterUpdate>)
      modifies ctx
      ensures r == PressUpdate(old(ctx.state.filters), p)
      ensures r.Ok? ==> ctx.state == old(ctx.state).(filters := ApplyFilterUpdate(old(ctx.state.filters), r.value))
      ensures r.Err? ==> ctx.state == old(ctx.state)
    {
      r := PressUpdate(ctx.state.filters, p);
      if r.Ok? {
        ctx.UpdateFilter(r.value);
      }
    }

    /** handleGenerateCode. `draws` are the code generator's random draws,
        `now`, `expiresAt` and `avatarSeed` the database's column defaults,
        and `discover` and `details` the catalogue service's answers. A
        second press while one is in progress is ignored. */
    method HandleGenerateCode(store: SessionService.SessionStore, draws: seq<SessionService.Draw>, deviceId: string,
                              now: int, expiresAt: int, avatarSeed: int,
                              discover: (bool, Tmdb.Params, int) -> seq<Tmdb.DiscoverResult>,
                              details: (bool, int) -> Tmdb.TitleDetails)
      returns (outcome: CreateOutcome)
      requires store.Valid()
      requires |draws| >= SessionService.CodeLength * SessionService.MaxCodeAttempts
      modifies this, store, ctx
      ensures store.Valid() && creating == old(creating)
      ensures store.swipes == old(store.swipes)
      ensures old(creating) ==> outcome == Ignored && ctx.state == old(ctx.state)
      ensures old(creating) ==>
        store.sessions == old(store.sessions) && store.participants == old(store.participants) &&
        store.catalogItems == old(store.catalogItems)
      ensures !old(creating) ==>
        var code := SessionService.FirstFreeCandidate(old(store.sessions), draws, 0);
        && (code.Err? ==>
             && outcome == Failed(code.message) && ctx.state == old(ctx.state)
             && store.sessions == old(store.sessions) && store.participants == old(store.participants)
             && store.catalogItems == old(store.catalogItems))
        && (code.Ok? ==>
             Launched(old(store.sessions), old(store.participants), old(store.catalogItems), old(store.nextId), old(ctx.state),
                      code.value, deviceId, now, expiresAt, avatarSeed,
                      Tmdb.CatalogResult(old(ctx.state.filters), old(ctx.state.selectedServices), discover, details),
                      store.sessions, store.participants, store.catalogItems, ctx.state, outcome))
    {
      if creating {
        return Ignored;
      }
      creating := true;
      var code := store.GenerateUniqueCode(draws);
      if code.Err? {
        creating := false;
        return Failed(code.message);
      }
      outcome := Launch(store, code.value, deviceId, now, expiresAt, avatarSeed, discover, details);
      creating := false;
    }

    /** The steps after a free code is found: the session row is written
        before the catalogue is built, so a failed or empty catalogue leaves
        a lobby session behind; otherwise the catalogue is seeded, the host
        joins under their nickname or 'Host', and the context records the
        session. `catalog` is what the catalogue build yields. */
    ghost predicate Launched(
      sessions0: seq<Session>, participants0: seq<SessionService.ParticipantRow>,
      catalogItems0: seq<SessionService.CatalogRow>, nextId0: Id, state0: SessionState,
      code: string, deviceId: string, now: int, expiresAt: int, avatarSeed: int,
      catalog: Result<seq<CatalogItem>>,
      sessions: seq<Session>, participants: seq<SessionService.ParticipantRow>,
      catalogItems: seq<SessionService.CatalogRow>, state: SessionState, outcome: CreateOutcome)
    {
      && sessions == sessions0 + [Session(nextId0, code, deviceId, state0.selectedServices, state0.filters,
                                          SessionService.DefaultMatchThreshold, Lobby, now, expiresAt)]
      && (catalog.Err? ==>
           outcome == Failed(catalog.message) && state == state0 &&
           participants == participants0 && catalogItems == catalogItems0)
      && (catalog == Ok([]) ==>
           outcome == NoResults(nextId0) && state == state0 &&
           participants == participants0 && catalogItems == catalogItems0)
      && (catalog.Ok? && |catalog.value| > 0 ==>
           HostJoined(participants0, catalogItems0, nextId0, state0, code, deviceId, now, avatarSeed,
                      catalog.value, participants, catalogItems, state, outcome))
    }

    /** The host's join after a non-empty catalogue: the catalogue is
        seeded under the session's id, the host is added under their
        nickname or 'Host', and the context records the code, the ids and
        the default threshold. */
    ghost predicate HostJoined(
      participants0: seq<SessionService.ParticipantRow>, catalogItems0: seq<SessionService.CatalogRow>,
      sessionId: Id, state0: SessionState, code: string, deviceId: string, now: int, avatarSeed: int,
      catalog: seq<CatalogItem>,
      participants: seq<SessionService.ParticipantRow>, catalogItems: seq<SessionService.CatalogRow>,
      state: SessionState, outcome: CreateOutcome)
    {
      var participantId := sessionId + 1 + |catalog|;
      && outcome == Created(sessionId, participantId)
      && catalogItems == catalogItems0 + SessionService.SeedRows(sessionId, catalog, sessionId + 1)
      && participants == participants0 + [SessionService.ParticipantRow(
           participantId, sessionId, deviceId, Some(DisplayName(state0.nickname, "Host")), avatarSeed, true, 0, now)]
      && state == state0.(sessionCode := Some(code), sessionId := Some(sessionId),
           participantId := Some(participantId), matchThreshold := SessionService.DefaultMatchThreshold)
    }

    method Launch(store: SessionService.SessionStore, code: string, deviceId: string,
                  now: int, expiresAt: int, avatarSeed: int,
                  discover: (bool, Tmdb.Params, int) -> seq<Tmdb.DiscoverResult>,
                  details: (bool, int) -> Tmdb.TitleDetails)
      returns (outcome: CreateOutcome)
      requires store.Valid()
      modifies store, ctx
      ensures store.Valid()
      ensures store.swipes == old(store.swipes)
      ensures Launched(old(store.sessions), old(store.participants), old(store.catalogItems), old(store.nextId), old(ctx.state),
                       code, deviceId, now, expiresAt, avatarSeed,
                       Tmdb.CatalogResult(old(ctx.state.filters), old(ctx.state.selectedServices), discover, details),
                       store.sessions, store.participants, store.catalogItems, ctx.state, outcome)
    {
      var filters := ctx.state.filters;
      var selectedServices := ctx.state.selectedServices;
      var session := store.CreateSession(code, deviceId, selectedServices, filters, None, now, expiresAt);
      assert session == Session(old(store.nextId), code, deviceId, selectedServices, filters,
                                SessionService.DefaultMatchThreshold, Lobby, now, expiresAt);
      var catalog := Tmdb.BuildCatalog(filters, selectedServices, discover, details);
      assert ctx.state == old(ctx.state);
      ghost var sessions0, participants0, catalogItems0, nextId0, state0 :=
        old(store.sessions), old(store.participants), old(store.catalogItems), old(store.nextId), old(ctx.state);
      if catalog.Err? {
        outcome := Failed(catalog.message);
        assert Launched(sessions0, participants0, catalogItems0, nextId0, state0, code, deviceId, now, expiresAt, avatarSeed,
                        catalog, store.sessions, store.participants, store.catalogItems, ctx.state, outcome);
      } else if |catalog.value| == 0 {
        outcome := NoResults(session.id);
        assert Launched(sessions0, participants0, catalogItems0, nextId0, state0, code, deviceId, now, expiresAt, avatarSeed,
                        catalog, store.sessions, store.participants, store.catalogItems, ctx.state, outcome);
      } else {
        outcome := JoinAsHost(store, session, catalog.value, deviceId, avatarSeed, now,
                              participants0, catalogItems0, state0);
        assert Launched(sessions0, participants0, catalogItems0, nextId0, state0, code, deviceId, now, expiresAt, avatarSeed,
                        catalog, store.sessions, store.participants, store.catalogItems, ctx.state, outcome);
      }
    }

    /** Seeds the catalogue, adds the host and records the session in the
        context. */
    method JoinAsHost(store: SessionService.SessionStore, session: Session, catalog: seq<CatalogItem>,
                      deviceId: string, avatarSeed: int, now: int,
                      ghost participants0: seq<SessionService.ParticipantRow>,
                      ghost catalogItems0: seq<SessionService.CatalogRow>, ghost state0: SessionState)
      returns (outcome: CreateOutcome)
      requires store.Valid()
      requires store.participants == participants0 && store.catalogItems == catalogItems0 && ctx.state == state0
      requires store.nextId == session.id + 1 && session.matchThreshold == SessionService.DefaultMatchThreshold
      modifies store, ctx
      ensures store.Valid()
      ensures store.sessions == old(store.sessions) && store.swipes == old(store.swipes)
      ensures HostJoined(participants0, catalogItems0, session.id, state0, session.code, deviceId, now, avatarSeed,
                         catalog, store.participants, store.catalogItems, ctx.state, outcome)
    {
      store.SeedCatalog(session.id, catalog);
      var participant := store.AddParticipant(session.id, deviceId, DisplayName(ctx.state.nickname, "Host"), true, avatarSeed, now);
      ctx.SetSessionCode(Some(session.code));
      ctx.SetSessionId(Some(session.id));
      ctx.SetParticipantId(Some(participant.id));
      ctx.SetMatchThreshold(session.matchThreshold);
      return Created(session.id, participant.id);
    }
  }
}
