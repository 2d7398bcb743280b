/** lib/sessionService.ts: the session store. The hosted database is
    modelled as an in-memory store with one table per database table; its
    rows keep the columns' nullability, and the row mappers turn them into
    the app's entities. Writes are methods of `SessionStore`; reads are
    functions of the tables. Random draws, the clock and the database's
    column defaults are parameters. The `session_matches` view is computed
    by the database; only its rows are modelled. */
module SessionService {
  import opened Wrappers
  import opened Lists
  import opened Text
  import opened Types

  // ─── Rows ───────────────────────────────────────────────────────

  datatype ParticipantRow = ParticipantRow(
    id: Id,
    sessionId: Id,
    deviceId: string,
    nickname: Option<string>,
    avatarSeed: int,
    isHost: bool,
    swipeProgress: int,
    joinedAt: int)

  datatype CatalogRow = CatalogRow(
    id: Id,
    sessionId: Id,
    tmdbId: int,
    title: string,
    posterUrl: Option<string>,
    synopsis: Option<string>,
    genres: seq<string>,
    runtime: Option<int>,
    releaseYear: Option<int>,
    tmdbRating: Option<real>,
    availableOn: seq<string>,
    displayOrder: int)

  datatype SwipeRow = SwipeRow(
    id: Id,
    participantId: Id,
    catalogItemId: Id,
    sessionId: Id,
    direction: SwipeDirection,
    timeOnCardMs: int,
    swipedAt: int)

  /** A row of the `session_matches` view. `avgEnthusiasm` is `None` where
      the column is null or not a number. */
  datatype MatchRow = MatchRow(
    sessionId: Id,
    catalogItemId: Id,
    title: string,
    posterUrl: Option<string>,
    tmdbRating: Option<real>,
    availableOn: seq<string>,
    genres: seq<string>,
    runtime: Option<int>,
    releaseYear: Option<int>,
    synopsis: Option<string>,
    rightSwipeCount: int,
    totalParticipants: int,
    matchPercentage: real,
    tier: MatchTier,
    avgEnthusiasm: Option<real>)

  // ─── Row mappers ────────────────────────────────────────────────

  /** A participant whose nickname column is null is called 'Guest'. */
  function ToParticipant(row: ParticipantRow): (p: Participant)
    ensures p.id == row.id && p.sessionId == row.sessionId && p.deviceId == row.deviceId
    ensures p.avatarSeed == row.avatarSeed && p.isHost == row.isHost
    ensures p.swipeProgress == row.swipeProgress && p.joinedAt == row.joinedAt
    ensures row.nickname.None? ==> p.nickname == "Guest"
    ensures row.nickname.Some? ==> p.nickname == row.nickname.value
  {
    Participant(row.id, row.sessionId, row.deviceId, row.nickname.GetOr("Guest"),
                row.avatarSeed, row.isHost, row.swipeProgress, row.joinedAt)
  }

  /** Null text columns read as '' and null numbers as 0. */
  function ToCatalogItem(row: CatalogRow): (c: CatalogItem)
    ensures c.id == row.id && c.sessionId == row.sessionId && c.displayOrder == row.displayOrder
    ensures c.tmdbId == row.tmdbId && c.title == row.title && c.genres == row.genres && c.availableOn == row.availableOn
    ensures row.posterUrl.Some? ==> c.posterUrl == row.posterUrl.value
    ensures row.synopsis.Some? ==> c.synopsis == row.synopsis.value
    ensures row.runtime.Some? ==> c.runtime == row.runtime.value
    ensures row.releaseYear.Some? ==> c.releaseYear == row.releaseYear.value
    ensures row.tmdbRating.Some? ==> c.tmdbRating == row.tmdbRating.value
    ensures row.posterUrl.None? ==> c.posterUrl == ""
    ensures row.synopsis.None? ==> c.synopsis == ""
    ensures row.runtime.None? ==> c.runtime == 0
    ensures row.releaseYear.None? ==> c.releaseYear == 0
    ensures row.tmdbRating.None? ==> c.tmdbRating == 0.0
  {
    CatalogItem(row.id, row.sessionId, row.tmdbId, row.title, row.posterUrl.GetOr(""),
                row.synopsis.GetOr(""), row.genres, row.runtime.GetOr(0), row.releaseYear.GetOr(0),
                row.tmdbRating.GetOr(0.0), row.availableOn, row.displayOrder)
  }

  /** Null text columns read as '' and null numbers as 0; the enthusiasm
      average reads as 0 when it is null or not a number. */
  function ToMatch(row: MatchRow): (m: Match)
    ensures m.catalogItemId == row.catalogItemId && m.matchPercentage == row.matchPercentage
    ensures m.tier == row.tier && m.rightSwipeCount == row.rightSwipeCount
    ensures m.title == row.title && m.genres == row.genres && m.availableOn == row.availableOn
    ensures m.totalParticipants == row.totalParticipants
    ensures row.avgEnthusiasm.None? ==> m.avgEnthusiasm == 0.0
    ensures row.avgEnthusiasm.Some? ==> m.avgEnthusiasm == row.avgEnthusiasm.value
    ensures row.posterUrl.None? ==> m.posterUrl == ""
    ensures row.synopsis.None? ==> m.synopsis == ""
    ensures row.runtime.None? ==> m.runtime == 0
    ensures row.releaseYear.None? ==> m.releaseYear == 0
    ensures row.tmdbRating.None? ==> m.tmdbRating == 0.0
    ensures row.posterUrl.Some? ==> m.posterUrl == row.posterUrl.value
    ensures row.synopsis.Some? ==> m.synopsis == row.synopsis.value
    ensures row.runtime.Some? ==> m.runtime == row.runtime.value
    ensures row.releaseYear.Some? ==> m.releaseYear == row.releaseYear.value
    ensures row.tmdbRating.Some? ==> m.tmdbRating == row.tmdbRating.value
  {
    Match(row.catalogItemId, row.title, row.posterUrl.GetOr(""), row.tmdbRating.GetOr(0.0),
          row.availableOn, row.genres, row.runtime.GetOr(0), row.releaseYear.GetOr(0),
          row.synopsis.GetOr(""), row.rightSwipeCount, row.totalParticipants,
          row.matchPercentage, row.tier, row.avgEnthusiasm.GetOr(0.0))
  }

  /** The row seedCatalog writes for one catalogue item. */
  function SeedRow(sessionId: Id, item: CatalogItem, id: Id): CatalogRow {
    CatalogRow(id, sessionId, item.tmdbId, item.title, Some(item.posterUrl), Some(item.synopsis),
               item.genres, Some(item.runtime), Some(item.releaseYear), Some(item.tmdbRating),
               item.availableOn, item.displayOrder)
  }

  /** Writing an item and reading it back gives the item, with the store's
      id and the session's id. */
  lemma SeedRowRoundTrip(sessionId: Id, item: CatalogItem, id: Id)
    ensures ToCatalogItem(SeedRow(sessionId, item, id)) == item.(id := id, sessionId := sessionId)
  {
  }

  // ─── Join codes ─────────────────────────────────────────────────

  const CodeLetters := "ABCDEFGHJKLMNPQRSTUVWXYZ"
  const CodeDigits := "23456789"
  const CodeChars := CodeLetters + CodeDigits
  /** One random pick: an index into the 32-character code alphabet. */
  type Draw = i: nat | i < 32

  const CodeLength: nat := 6
  const MaxCodeAttempts: nat := 3
  const DefaultMatchThreshold: real := 0.5
  const CodeGenerationError := "Failed to generate unique code after 3 attempts"

  /** Characters in strictly increasing order. */
  predicate Ascending(s: string) {
    forall i :: 0 <= i < |s| - 1 ==> s[i] < s[i + 1]
  }

  lemma {:induction false} AscendingNoDups(s: string)
    requires Ascending(s)
    ensures forall i, j :: 0 <= i < j < |s| ==> s[i] < s[j]
  {
    if |s| > 1 {
      var t := s[1..];
      assert Ascending(t);
      AscendingNoDups(t);
      forall i, j | 0 <= i < j < |s|
        ensures s[i] < s[j]
      {
        if i == 0 {
          if j > 1 {
            assert t[0] < t[j - 1];
          }
        } else {
          assert t[i - 1] < t[j - 1];
        }
      }
    }
  }

  /** The code alphabet: 32 distinct symbols. */
  lemma CodeAlphabetDistinct()
    ensures |CodeChars| == 32
    ensures NoDups(CodeChars)
  {
    assert Ascending(CodeLetters);
    assert Ascending(CodeDigits);
    AscendingNoDups(CodeLetters);
    AscendingNoDups(CodeDigits);
    CodeAlphabetSymbols();
    forall i, j | 0 <= i < j < |CodeChars|
      ensures CodeChars[i] != CodeChars[j]
    {
      if j < |CodeLetters| {
        assert CodeChars[i] == CodeLetters[i] && CodeChars[j] == CodeLetters[j];
      } else if i >= |CodeLetters| {
        assert CodeChars[i] == CodeDigits[i - |CodeLetters|] && CodeChars[j] == CodeDigits[j - |CodeLetters|];
      } else {
        assert CodeChars[i] in CodeLetters && CodeChars[j] in CodeDigits;
      }
    }
  }

  /** Upper-case letters and digits only, without the look-alikes I, O, 0
      and 1. */
  lemma CodeAlphabetSymbols()
    ensures forall c :: c in CodeLetters ==> 'A' <= c <= 'Z'
    ensures forall c :: c in CodeDigits ==> '2' <= c <= '9'
    ensures forall c :: c in CodeChars ==> 'A' <= c <= 'Z' || '2' <= c <= '9'
    ensures 'I' !in CodeChars && 'O' !in CodeChars && '0' !in CodeChars && '1' !in CodeChars
  {
    assert forall i :: 0 <= i < |CodeLetters| ==>
      'A' <= CodeLetters[i] <= 'Z' && CodeLetters[i] != 'I' && CodeLetters[i] != 'O';
    assert forall i :: 0 <= i < |CodeDigits| ==> '2' <= CodeDigits[i] <= '9';
    assert forall c :: c in CodeChars <==> c in CodeLetters || c in CodeDigits;
  }

  predicate ValidCode(code: string) {
    |code| == CodeLength && forall c :: c in code ==> c in CodeChars
  }

  /** The `attempt`-th candidate: the characters picked by draws
      6*attempt .. 6*attempt+5 (each draw is `Math.floor(Math.random() * 32)`). */
  function Candidate(draws: seq<Draw>, attempt: nat): (code: string)
    requires CodeLength * (attempt + 1) <= |draws|
    ensures ValidCode(code)
  {
    var code := seq(CodeLength, i requires 0 <= i < CodeLength => CodeChars[draws[CodeLength * attempt + i]]);
    assert forall i :: 0 <= i < CodeLength ==> code[i] in CodeChars;
    code
  }

  function LobbyWithCode(code: string): Session -> bool {
    (s: Session) => s.code == code && s.status == Lobby
  }

  /** The collision test. It asks for at most one lobby session with the
      code (`maybeSingle`): data comes back only when exactly one row
      matches, so a code shared by two lobby sessions reads as free. */
  predicate CodeInUse(sessions: seq<Session>, code: string) {
    |Filter(sessions, LobbyWithCode(code))| == 1
  }

  /** The code generation's outcome from attempt `attempt` on: the first
      candidate not in use, or the error after the third collision. */
  function FirstFreeCandidate(sessions: seq<Session>, draws: seq<Draw>, attempt: nat): (r: Result<string>)
    requires attempt <= MaxCodeAttempts && CodeLength * MaxCodeAttempts <= |draws|
    ensures r.Err? ==> r.message == CodeGenerationError
    decreases MaxCodeAttempts - attempt
  {
    if attempt == MaxCodeAttempts then Err(CodeGenerationError)
    else if !CodeInUse(sessions, Candidate(draws, attempt)) then Ok(Candidate(draws, attempt))
    else FirstFreeCandidate(sessions, draws, attempt + 1)
  }

  /** Every candidate of the attempts `from` to `to - 1` is in use. */
  predicate CollideFrom(sessions: seq<Session>, draws: seq<Draw>, from: nat, to: nat)
    requires to <= MaxCodeAttempts && CodeLength * MaxCodeAttempts <= |draws|
  {
    forall j :: from <= j < to ==> CodeInUse(sessions, Candidate(draws, j))
  }

  /** From attempt `attempt` on, the generation fails exactly when every
      remaining candidate collides, and otherwise returns a well-formed,
      free code: the candidate of some attempt all of whose predecessors
      collided. */
  lemma {:induction false} FirstFreeCandidateSpec(sessions: seq<Session>, draws: seq<Draw>, attempt: nat)
    requires attempt <= MaxCodeAttempts && CodeLength * MaxCodeAttempts <= |draws|
    ensures FirstFreeCandidate(sessions, draws, attempt).Err? <==> CollideFrom(sessions, draws, attempt, MaxCodeAttempts)
    ensures FirstFreeCandidate(sessions, draws, attempt).Ok? ==>
      && ValidCode(FirstFreeCandidate(sessions, draws, attempt).value)
      && !CodeInUse(sessions, FirstFreeCandidate(sessions, draws, attempt).value)
      && exists k :: attempt <= k < MaxCodeAttempts && CollideFrom(sessions, draws, attempt, k) &&
           FirstFreeCandidate(sessions, draws, attempt).value == Candidate(draws, k)
    decreases MaxCodeAttempts - attempt
  {
    if attempt < MaxCodeAttempts {
      var r := FirstFreeCandidate(sessions, draws, attempt);
      if CodeInUse(sessions, Candidate(draws, attempt)) {
        FirstFreeCandidateSpec(sessions, draws, attempt + 1);
        assert r == FirstFreeCandidate(sessions, draws, attempt + 1);
        if r.Ok? {
          var k :| attempt + 1 <= k < MaxCodeAttempts && CollideFrom(sessions, draws, attempt + 1, k) &&
            r.value == Candidate(draws, k);
          assert CollideFrom(sessions, draws, attempt, k);
        } else {
          assert CollideFrom(sessions, draws, attempt, MaxCodeAttempts);
        }
      } else {
        assert CollideFrom(sessions, draws, attempt, attempt);
        assert !CollideFrom(sessions, draws, attempt, MaxCodeAttempts);
      }
    }
  }

  // ─── Queries ────────────────────────────────────────────────────

  function Joinable(code: string, now: int): Session -> bool {
    (s: Session) => s.code == Upper(code) && s.status == Lobby && s.expiresAt > now
  }

  /** lookupSessionByCode: the one lobby session, not yet expired, whose code
      is the upper-cased input; nothing when there is none; an error when
      several match (`maybeSingle`). */
  function LookupSessionByCode(sessions: seq<Session>, code: string, now: int): (r: Result<Option<Session>>)
    ensures r == Ok(None) <==> forall s :: s in sessions ==> !Joinable(code, now)(s)
    ensures r.Ok? && r.value.Some? ==>
      && r.value.value in sessions
      && r.value.value.code == Upper(code) && r.value.value.status == Lobby && r.value.value.expiresAt > now
      && forall s :: s in sessions && Joinable(code, now)(s) ==> s == r.value.value
    ensures r.Err? <==> |Filter(sessions, Joinable(code, now))| > 1
  {
    var hits := Filter(sessions, Joinable(code, now));
    FilterMembership(sessions, Joinable(code, now));
    if |hits| == 0 then Ok(None)
    else if |hits| == 1 then
      assert hits[0] in hits;
      Ok(Some(hits[0]))
    else Err("JSON object requested, multiple (or no) rows returned")
  }

  function CatalogOf(sessionId: Id): CatalogRow -> bool {
    (row: CatalogRow) => row.sessionId == sessionId
  }

  function ByDisplayOrder(): CatalogItem -> real {
    (c: CatalogItem) => c.displayOrder as real
  }

  /** fetchCatalog: the session's items, in ascending display order. */
  function FetchCatalog(rows: seq<CatalogRow>, sessionId: Id): (r: seq<CatalogItem>)
    ensures multiset(r) == multiset(Map(Filter(rows, CatalogOf(sessionId)), ToCatalogItem))
    ensures forall i, j :: 0 <= i < j < |r| ==> r[i].displayOrder <= r[j].displayOrder
  {
    SortBy(Map(Filter(rows, CatalogOf(sessionId)), ToCatalogItem), ByDisplayOrder())
  }

  /** Every fetched item belongs to the session, and every row of the
      session is fetched. */
  lemma FetchCatalogMembers(rows: seq<CatalogRow>, sessionId: Id)
    ensures forall c :: c in FetchCatalog(rows, sessionId) ==> c.sessionId == sessionId
    ensures forall row :: row in rows && row.sessionId == sessionId ==> ToCatalogItem(row) in FetchCatalog(rows, sessionId)
  {
    var kept := Filter(rows, CatalogOf(sessionId));
    FilterMembership(rows, CatalogOf(sessionId));
    MapMembership(kept, ToCatalogItem);
    SameMembers(FetchCatalog(rows, sessionId), Map(kept, ToCatalogItem));
  }


  function ParticipantsOf(sessionId: Id): ParticipantRow -> bool {
    (row: ParticipantRow) => row.sessionId == sessionId
  }

  function ByJoinedAt(): Participant -> real {
    (p: Participant) => p.joinedAt as real
  }

  /** fetchParticipants: the session's participants, in ascending join time. */
  function FetchParticipants(rows: seq<ParticipantRow>, sessionId: Id): (r: seq<Participant>)
    ensures multiset(r) == multiset(Map(Filter(rows, ParticipantsOf(sessionId)), ToParticipant))
    ensures forall i, j :: 0 <= i < j < |r| ==> r[i].joinedAt <= r[j].joinedAt
  {
    SortBy(Map(Filter(rows, ParticipantsOf(sessionId)), ToParticipant), ByJoinedAt())
  }

  function MatchesOf(sessionId: Id, threshold: real): MatchRow -> bool {
    (row: MatchRow) => row.sessionId == sessionId && row.matchPercentage >= threshold
  }

  function ByPercentageDescending(): Match -> real {
    (m: Match) => -m.matchPercentage
  }

  /** fetchMatches: the session's matches that reach the threshold, best
      first. */
  function FetchMatches(view: seq<MatchRow>, sessionId: Id, threshold: real): (r: seq<Match>)
    ensures multiset(r) == multiset(Map(Filter(view, MatchesOf(sessionId, threshold)), ToMatch))
    ensures forall i, j :: 0 <= i < j < |r| ==> r[i].matchPercentage >= r[j].matchPercentage
  {
    SortBy(Map(Filter(view, MatchesOf(sessionId, threshold)), ToMatch), ByPercentageDescending())
  }

  /** Every fetched match reaches the threshold and comes from a row of the
      session; every such row is fetched. */
  lemma FetchMatchesMembers(view: seq<MatchRow>, sessionId: Id, threshold: real)
    ensures forall m :: m in FetchMatches(view, sessionId, threshold) ==>
      m.matchPercentage >= threshold &&
      exists row :: row in view && row.sessionId == sessionId && ToMatch(row) == m
    ensures forall row :: row in view && row.sessionId == sessionId && row.matchPercentage >= threshold ==>
      ToMatch(row) in FetchMatches(view, sessionId, threshold)
  {
    var kept := Filter(view, MatchesOf(sessionId, threshold));
    FilterMembership(view, MatchesOf(sessionId, threshold));
    MapMembership(kept, ToMatch);
    SameMembers(FetchMatches(view, sessionId, threshold), Map(kept, ToMatch));
    forall m | m in FetchMatches(view, sessionId, threshold)
      ensures m.matchPercentage >= threshold &&
        exists row :: row in view && row.sessionId == sessionId && ToMatch(row) == m
    {
      var row :| row in kept && ToMatch(row) == m;
    }
  }


  // ─── Table updates ──────────────────────────────────────────────

  /** `update({ status }).eq('id', id)`: every row with the id gets the new
      status, whatever it was; the other rows are untouched. */
  function SetStatus(sessions: seq<Session>, id: Id, status: SessionStatus): (r: seq<Session>)
    ensures |r| == |sessions|
    ensures forall i :: 0 <= i < |r| ==>
      r[i].id == sessions[i].id && r[i] == sessions[i].(status := r[i].status)
    ensures forall i :: 0 <= i < |r| ==> r[i].status == if sessions[i].id == id then status else sessions[i].status
  {
    Map(sessions, (s: Session) => if s.id == id then s.(status := status) else s)
  }

  /** `update({ swipe_progress }).eq('id', id)`: overwrites the progress of
      the participant with the id, even with a smaller value. */
  function SetSwipeProgress(rows: seq<ParticipantRow>, id: Id, progress: int): (r: seq<ParticipantRow>)
    ensures |r| == |rows|
    ensures forall i :: 0 <= i < |r| ==>
      r[i].id == rows[i].id && r[i] == rows[i].(swipeProgress := r[i].swipeProgress)
    ensures forall i :: 0 <= i < |r| ==> r[i].swipeProgress == if rows[i].id == id then progress else rows[i].swipeProgress
  {
    Map(rows, (p: ParticipantRow) => if p.id == id then p.(swipeProgress := progress) else p)
  }

  /** seedCatalog's rows: one per item, in order, with consecutive store ids.
      The display order is the item's own (`item.displayOrder ?? i + 1`:
      the fallback needs an item without one, which a typed item cannot be). */
  function SeedRows(sessionId: Id, items: seq<CatalogItem>, firstId: Id): (r: seq<CatalogRow>)
    ensures |r| == |items|
    ensures forall i :: 0 <= i < |r| ==> r[i] == SeedRow(sessionId, items[i], firstId + i)
  {
    seq(|items|, i requires 0 <= i < |items| => SeedRow(sessionId, items[i], firstId + i))
  }

  /** Seeding a fresh session with a catalogue numbered in increasing order
      and fetching it back returns the same items in the same order, each
      with its store id and the session's id. */
  lemma SeedThenFetch(rows: seq<CatalogRow>, sessionId: Id, items: seq<CatalogItem>, firstId: Id)
    requires forall row :: row in rows ==> row.sessionId != sessionId
    requires forall i, j :: 0 <= i < j < |items| ==> items[i].displayOrder < items[j].displayOrder
    ensures FetchCatalog(rows + SeedRows(sessionId, items, firstId), sessionId)
         == seq(|items|, i requires 0 <= i < |items| => items[i].(id := firstId + i, sessionId := sessionId))
  {
    var seeded := SeedRows(sessionId, items, firstId);
    SeededRowsAreTheSessions(rows, sessionId, seeded);
    var fetched := Map(seeded, ToCatalogItem);
    var expected := seq(|items|, i requires 0 <= i < |items| => items[i].(id := firstId + i, sessionId := sessionId));
    forall i | 0 <= i < |items|
      ensures fetched[i] == expected[i]
    {
      SeedRowRoundTrip(sessionId, items[i], firstId + i);
    }
    assert fetched == expected;
    SortByStrictlySorted(fetched, ByDisplayOrder());
  }

  lemma SeededRowsAreTheSessions(rows: seq<CatalogRow>, sessionId: Id, seeded: seq<CatalogRow>)
    requires forall row :: row in rows ==> row.sessionId != sessionId
    requires forall row :: row in seeded ==> row.sessionId == sessionId
    ensures Filter(rows + seeded, CatalogOf(sessionId)) == seeded
  {
    FilterAppend(rows, seeded, CatalogOf(sessionId));
    FilterDropsAll(rows, CatalogOf(sessionId));
    FilterKeepsAll(seeded, CatalogOf(sessionId));
  }

  // ─── The store ──────────────────────────────────────────────────

  /** `ids` are distinct and were all issued before `nextId`. */
  ghost predicate IssuedBefore(ids: seq<Id>, nextId: Id) {
    && (forall i :: 0 <= i < |ids| ==> 1 <= ids[i] < nextId)
    && (forall i, j :: 0 <= i < j < |ids| ==> ids[i] != ids[j])
  }

  lemma IssueNext(ids: seq<Id>, nextId: Id, count: nat)
    requires IssuedBefore(ids, nextId) && nextId >= 1
    ensures IssuedBefore(ids + seq(count, i requires 0 <= i < count => nextId + i), nextId + count)
  {
  }

  function SessionIds(rows: seq<Session>): seq<Id> {
    Map(rows, (s: Session) => s.id)
  }

  function ParticipantIds(rows: seq<ParticipantRow>): seq<Id> {
    Map(rows, (p: ParticipantRow) => p.id)
  }

  function CatalogIds(rows: seq<CatalogRow>): seq<Id> {
    Map(rows, (c: CatalogRow) => c.id)
  }

  function SwipeIds(rows: seq<SwipeRow>): seq<Id> {
    Map(rows, (w: SwipeRow) => w.id)
  }

  class SessionStore {
    var sessions: seq<Session>
    var participants: seq<ParticipantRow>
    var catalogItems: seq<CatalogRow>
    var swipes: seq<SwipeRow>
    /** The next id the store issues. */
    var nextId: Id

    /** Every table's ids are distinct and already issued. */
    ghost predicate Valid()
      reads this
    {
      && nextId >= 1
      && IssuedBefore(SessionIds(sessions), nextId)
      && IssuedBefore(ParticipantIds(participants), nextId)
      && IssuedBefore(CatalogIds(catalogItems), nextId)
      && IssuedBefore(SwipeIds(swipes), nextId)
    }

    constructor()
      ensures Valid()
      ensures sessions == [] && participants == [] && catalogItems == [] && swipes == []
    {
      sessions := [];
      participants := [];
      catalogItems := [];
      swipes := [];
      nextId := 1;
    }

    /** generateUniqueCode: at most three candidates, the first one not in
        use is returned; three collisions are an error. */
    method GenerateUniqueCode(draws: seq<Draw>) returns (r: Result<string>)
      requires |draws| >= CodeLength * MaxCodeAttempts
      ensures r == FirstFreeCandidate(sessions, draws, 0)
    {
      var attempt := 0;
      while attempt < MaxCodeAttempts
        invariant 0 <= attempt <= MaxCodeAttempts
        invariant FirstFreeCandidate(sessions, draws, attempt) == FirstFreeCandidate(sessions, draws, 0)
      {
        var code := DrawCode(draws, attempt);
        if !CodeInUse(sessions, code) {
          return Ok(code);
        }
        attempt := attempt + 1;
      }
      return Err(CodeGenerationError);
    }

    /** One attempt's code: six characters drawn from the alphabet. */
    static method DrawCode(draws: seq<Draw>, attempt: nat) returns (code: string)
      requires CodeLength * (attempt + 1) <= |draws|
      ensures code == Candidate(draws, attempt)
    {
      code := "";
      var i := 0;
      while i < CodeLength
        invariant 0 <= i <= CodeLength
        invariant code == Candidate(draws, attempt)[..i]
      {
        code := code + [CodeChars[draws[CodeLength * attempt + i]]];
        i := i + 1;
      }
    }

    /** createSession: a new lobby session with the given threshold, or 0.5.
        `now` and `expiresAt` are the database's column defaults. */
    method CreateSession(code: string, deviceId: string, streamingServices: seq<string>, filters: Filters,
                         matchThreshold: Option<real>, now: int, expiresAt: int)
      returns (s: Session)
      requires Valid()
      modifies this
      ensures Valid()
      ensures s.status == Lobby && s.matchThreshold == matchThreshold.GetOr(DefaultMatchThreshold)
      ensures s.code == code && s.hostDeviceId == deviceId && s.streamingServices == streamingServices
      ensures s.filters == filters && s.createdAt == now && s.expiresAt == expiresAt
      ensures s.id == old(nextId) && nextId == old(nextId) + 1
      ensures s.id !in SessionIds(old(sessions))
      ensures sessions == old(sessions) + [s]
      ensures participants == old(participants) && catalogItems == old(catalogItems) && swipes == old(swipes)
    {
      s := Session(nextId, code, deviceId, streamingServices, filters,
                   matchThreshold.GetOr(DefaultMatchThreshold), Lobby, now, expiresAt);
      var id := nextId;
      IssueNext(SessionIds(sessions), id, 1);
      assert SessionIds(sessions + [s]) == SessionIds(sessions) + seq(1, i requires 0 <= i < 1 => id + i);
      sessions := sessions + [s];
      nextId := nextId + 1;
    }

    /** updateSessionStatus: no transition check. */
    method UpdateSessionStatus(id: Id, status: SessionStatus)
      requires Valid()
      modifies this
      ensures Valid()
      ensures sessions == SetStatus(old(sessions), id, status)
      ensures participants == old(participants) && catalogItems == old(catalogItems) && swipes == old(swipes)
      ensures nextId == old(nextId)
    {
      assert SessionIds(SetStatus(sessions, id, status)) == SessionIds(sessions);
      sessions := SetStatus(sessions, id, status);
    }

    /** addParticipant: a new row with progress 0; `avatarSeed` and `now` are
        the database's column defaults. */
    method AddParticipant(sessionId: Id, deviceId: string, nickname: string, isHost: bool, avatarSeed: int, now: int)
      returns (p: Participant)
      requires Valid()
      modifies this
      ensures Valid()
      ensures p.sessionId == sessionId && p.deviceId == deviceId && p.nickname == nickname
      ensures p.isHost == isHost && p.swipeProgress == 0 && p.joinedAt == now
      ensures p.id == old(nextId) && nextId == old(nextId) + 1
      ensures p.id !in ParticipantIds(old(participants))
      ensures participants == old(participants) + [ParticipantRow(p.id, sessionId, deviceId, Some(nickname), avatarSeed, isHost, 0, now)]
      ensures p == ToParticipant(participants[|old(participants)|])
      ensures sessions == old(sessions) && catalogItems == old(catalogItems) && swipes == old(swipes)
    {
      var row := ParticipantRow(nextId, sessionId, deviceId, Some(nickname), avatarSeed, isHost, 0, now);
      var id := nextId;
      IssueNext(ParticipantIds(participants), id, 1);
      assert ParticipantIds(participants + [row]) == ParticipantIds(participants) + seq(1, i requires 0 <= i < 1 => id + i);
      participants := participants + [row];
      nextId := nextId + 1;
      p := ToParticipant(row);
    }

    /** seedCatalog: one row per item, appended in order. */
    method SeedCatalog(sessionId: Id, items: seq<CatalogItem>)
      requires Valid()
      modifies this
      ensures Valid()
      ensures catalogItems == old(catalogItems) + SeedRows(sessionId, items, old(nextId))
      ensures nextId == old(nextId) + |items|
      ensures sessions == old(sessions) && participants == old(participants) && swipes == old(swipes)
    {
      var rows := SeedRows(sessionId, items, nextId);
      var firstId := nextId;
      IssueNext(CatalogIds(catalogItems), firstId, |items|);
      assert CatalogIds(catalogItems + rows) == CatalogIds(catalogItems) + seq(|items|, i requires 0 <= i < |items| => firstId + i);
      catalogItems := catalogItems + rows;
      nextId := nextId + |items|;
    }

    /** recordSwipe: appends exactly one row, even for a repeated swipe. */
    method RecordSwipe(participantId: Id, catalogItemId: Id, sessionId: Id, direction: SwipeDirection,
                       timeOnCardMs: int, now: int)
      requires Valid()
      modifies this
      ensures Valid()
      ensures |swipes| == |old(swipes)| + 1 && swipes[..|old(swipes)|] == old(swipes)
      ensures var w := swipes[|old(swipes)|];
        w.participantId == participantId && w.catalogItemId == catalogItemId && w.sessionId == sessionId &&
        w.direction == direction && w.timeOnCardMs == timeOnCardMs && w.swipedAt == now
      ensures swipes[|old(swipes)|].id == old(nextId) && nextId == old(nextId) + 1
      ensures swipes[|old(swipes)|].id !in SwipeIds(old(swipes))
      ensures sessions == old(sessions) && participants == old(participants) && catalogItems == old(catalogItems)
    {
      var row := SwipeRow(nextId, participantId, catalogItemId, sessionId, direction, timeOnCardMs, now);
      var id := nextId;
      IssueNext(SwipeIds(swipes), id, 1);
      assert SwipeIds(swipes + [row]) == SwipeIds(swipes) + seq(1, i requires 0 <= i < 1 => id + i);
      swipes := swipes + [row];
      nextId := nextId + 1;
    }

    /** updateSwipeProgress: no monotonicity check. */
    method UpdateSwipeProgress(participantId: Id, progress: int)
      requires Valid()
      modifies this
      ensures Valid()
      ensures participants == SetSwipeProgress(old(participants), participantId, progress)
      ensures sessions == old(sessions) && catalogItems == old(catalogItems) && swipes == old(swipes)
      ensures nextId == old(nextId)
    {
      assert ParticipantIds(SetSwipeProgress(participants, participantId, progress)) == ParticipantIds(participants);
      participants := SetSwipeProgress(participants, participantId, progress);
    }
  }

  /** A freshly created lobby session is found by its code, typed in any
      case, until it expires, provided no other joinable session shares
      the code. */
  lemma CreatedSessionIsFound(sessions: seq<Session>, s: Session, typed: string, now: int)
    requires s.status == Lobby && s.expiresAt > now && s.code == Upper(typed)
    requires forall t :: t in sessions ==> !Joinable(typed, now)(t)
    ensures LookupSessionByCode(sessions + [s], typed, now) == Ok(Some(s))
  {
    FilterMembership(sessions + [s], Joinable(typed, now));
    FilterAppend(sessions, [s], Joinable(typed, now));
    FilterDropsAll(sessions, Joinable(typed, now));
    assert Filter([s], Joinable(typed, now)) == [s];
  }

  /** A status write may leave the lobby, and a later write may return to
      it: after reopening, a session is joinable again. */
  lemma StatusWritesAreUnchecked(sessions: seq<Session>, i: nat, now: int)
    requires i < |sessions| && sessions[i].expiresAt > now
    ensures var reopened := SetStatus(SetStatus(sessions, sessions[i].id, Completed), sessions[i].id, Lobby);
      reopened[i] == sessions[i].(status := Lobby) && Joinable(sessions[i].code, now)(reopened[i]) == (sessions[i].code == Upper(sessions[i].code))
  {
  }
}
