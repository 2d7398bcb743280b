/** The entities of types/index.ts. Identifiers the store generates are
    natural numbers; `Unassigned` is the empty id a catalogue item carries
    before it is stored. Timestamps are integers (milliseconds). */
module Types {
  import opened Wrappers

  type Id = nat

  const Unassigned: Id := 0

  datatype SessionStatus = Lobby | Active | Completed | Expired

  datatype SwipeDirection = Left | Right

  /** 'perfect' | 'strong' | 'soft' | 'none'. */
  datatype MatchTier = Perfect | Strong | Soft | NoTier

  datatype ContentType = Movies | Tv | Both

  datatype Animation = Include | Exclude

  /** `releaseYearRange` is declared as a list of option ids, but the
      default filter state stores the plain string 'any' in it; both shapes
      occur at run time. */
  datatype YearRange = YearText(text: string) | YearList(ids: seq<string>)

  /** `SessionFilters`. `None` in `certifications` and `animation` is the
      field left undefined (the default state omits both); `None` in `mood`,
      `runtimeRange` and `minRating` is null. */
  datatype Filters = Filters(
    genres: seq<string>,
    mood: Option<string>,
    runtimeRange: Option<string>,
    releaseYearRange: YearRange,
    minRating: Option<int>,
    certifications: Option<seq<string>>,
    animation: Option<Animation>,
    contentType: ContentType)

  datatype Session = Session(
    id: Id,
    code: string,
    hostDeviceId: string,
    streamingServices: seq<string>,
    filters: Filters,
    matchThreshold: real,
    status: SessionStatus,
    createdAt: int,
    expiresAt: int)

  datatype Participant = Participant(
    id: Id,
    sessionId: Id,
    deviceId: string,
    nickname: string,
    avatarSeed: int,
    isHost: bool,
    swipeProgress: int,
    joinedAt: int)

  datatype CatalogItem = CatalogItem(
    id: Id,
    sessionId: Id,
    tmdbId: int,
    title: string,
    posterUrl: string,
    synopsis: string,
    genres: seq<string>,
    runtime: int,
    releaseYear: int,
    tmdbRating: real,
    availableOn: seq<string>,
    displayOrder: int)

  datatype Match = Match(
    catalogItemId: Id,
    title: string,
    posterUrl: string,
    tmdbRating: real,
    availableOn: seq<string>,
    genres: seq<string>,
    runtime: int,
    releaseYear: int,
    synopsis: string,
    rightSwipeCount: int,
    totalParticipants: int,
    matchPercentage: real,
    tier: MatchTier,
    avgEnthusiasm: real)
}
