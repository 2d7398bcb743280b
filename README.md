# FlickPick session core, in Dafny

FlickPick (FlicksWithFriends) is a mobile app in which a group of friends
swipes through a shared catalogue of films and shows and sees what they
all liked. This project models the app's core logic and proves properties
of it.

- **Catalogue builder** (`Tmdb`, lib/tmdb.ts). It covers:
  - the translation of the host's filters into TMDB discovery parameters: genre and mood resolution, providers, rating, runtime, release dates and certifications;
  - the reading of a title's US streaming providers;
  - genre-name normalisation;
  - the assembly of the catalogue: two discovery pages per media type, details fetched per hit, movie/TV interleaving, renumbering, and the genre-free fallback.

  TMDB's HTTP answers are function parameters.
- **Session store** (`SessionService`, lib/sessionService.ts). This is an in-memory store class, `SessionStore`, with the session, participant, catalogue and swipe tables. It covers:
  - join-code generation, from a supplied sequence of random draws;
  - session creation, lookup by code, and status writes;
  - participant joins;
  - catalogue seeding and its ordered fetch;
  - swipe recording and progress writes;
  - the threshold filter and ordering of the match rows.
- **Participant roster** (`UseParticipants`, hooks/useParticipants.ts): the idempotent INSERT merge, the field-limited UPDATE merge, and the channel-status error flag.
- **Client session state** (`SessionContext`, lib/SessionContext.tsx): the state record, its setters, `toggleService`, `updateFilter` and `resetSession`.
- **Filter screen** (`CreateFilters`, app/create/filters.tsx): every option press, and the step order of "Generate Code". That order is: code, then session row, then catalogue, then seeding, then the host's join, then the context.
  - As written, this screen throws while rendering, so none of these handlers can run. `CreateFilters` models them as they would behave if the screen rendered. "## Left out" gives the reason.
- **Code entry and join** (`CodeEntry`, `Welcome`, `EnterCode`; app/index.tsx and app/join/enter-code.tsx): the six-box code buffer, its sanitising writes, the Backspace rule, the completeness test, and the guarded guest join.

Supporting modules:

- `Types` holds the entities of types/index.ts.
- `Constants` holds the option tables of lib/constants.ts.
- `Wrappers` defines `Option`, for null/undefined, and `Result`, for thrown errors.
- `Lists` and `Text` hold the JavaScript array and string operations the source relies on.

Modelling choices:

- Store ids are natural numbers issued by one counter. Timestamps are integers.
- The clock, the random draws and the database's column defaults (`avatar_seed`, `joined_at`, `expires_at`) are parameters.
- Thresholds and percentages are `real`.

The model keeps the source's behaviour where it surprises:

- The default filters store the plain string `'any'` as the release-year range. The declared type is a list.
- The default filters omit `certifications`. A movie query on the default filters therefore throws a TypeError.
- `maybeSingle` treats two matching rows as an error when looking up a code. The collision test of code generation reads the same case as "free".

## Model

| member | source | states |
|---|---|---|
| Lists.Without | lib/SessionContext.tsx:80 | the result holds exactly the elements other than `x`, and is never longer |
| Lists.Toggle | lib/SessionContext.tsx:79-81 | the toggled element is present afterwards iff it was absent before; every other element keeps its membership |
| Lists.ToggleKeepsOthersInOrder | app/create/filters.tsx:52-58 | apart from the toggled element, the list is the same sequence before and after: nothing is reordered, added or dropped |
| Lists.ToggleTwiceRestores | lib/SessionContext.tsx:76-82 | toggling an absent element twice gives back the original list |
| Lists.Dedup | lib/tmdb.ts:186-194 | `Array.from` of a `Set`: no duplicates, the same members as the input, never longer |
| Lists.DedupSnoc | lib/tmdb.ts:189-191 | adding one more element appends it unless it is already present (`Set.add`) |
| Lists.Filter | lib/sessionService.ts:190 | every kept row occurs in the input and satisfies the condition |
| Lists.FilterCounts | lib/sessionService.ts:225 | a row satisfying the condition is kept as often as it occurs; other rows are kept zero times |
| Lists.FilterMembership | lib/sessionService.ts:272-273 | a row is kept iff it occurs and satisfies the condition |
| Lists.Map | lib/sessionService.ts:194 | same length; each element is the mapper applied to the row at the same position |
| Lists.MapMembership | lib/sessionService.ts:229 | the mapped list holds the image of every row and nothing else |
| Lists.SameMembers | lib/sessionService.ts:226 | reordering (same multiset) keeps membership both ways |
| Lists.InsertBy | lib/sessionService.ts:191 | inserting into a sorted list keeps it sorted and adds exactly the one element |
| Lists.SortBy | lib/sessionService.ts:191 | `.order(key, ascending)`: the result is sorted by the key and is a permutation of the input |
| Lists.SortByStrictlySorted | lib/sessionService.ts:226 | a list already strictly increasing in the key comes back unchanged |
| Text.NatToString | lib/tmdb.ts:121 | `String(n)`: at least one character, all decimal digits, no leading zero |
| Text.ParseNatToString | lib/tmdb.ts:121 | reading the printed number back gives the number |
| Text.IntToString | lib/tmdb.ts:121 | a printed integer never contains the list separator '\|' |
| Text.Split | lib/tmdb.ts:110 | the source never splits. `Split` is the reference inverse of the `join` at this line, used by `SplitJoin` and `IdListSplits` to show that join loses nothing. Splitting never yields an empty list of parts |
| Text.SplitJoin | lib/tmdb.ts:110 | a list joined with '\|' whose parts lack '\|' splits back into the same list |
| Text.UpperChar | lib/sessionService.ts:142 | `toUpperCase` on a character: an ASCII lower-case letter becomes its own capital (32 code points lower); any other character is unchanged |
| Text.Upper | lib/sessionService.ts:142 | `toUpperCase` on a string: same length, each character upper-cased |
| Tmdb.ReverseProviderMapInverts | lib/tmdb.ts:41-43 | the reverse provider table is the inverse of the provider table, in both directions |
| Tmdb.OptionTablesAgree | lib/tmdb.ts:8-53 | every genre, mood and service option the screens offer is a key of the builder's tables; every mood genre has an id |
| Tmdb.LookupAll | lib/tmdb.ts:89 | `map(lookup).filter(Boolean)`: every id is non-zero and belongs to a listed name; every known name's id is present |
| Tmdb.ResolveGenreIds | lib/tmdb.ts:80-90 | every resolved id belongs to one of the chosen names in the movie table, or in the table with the TV overrides for TV |
| Tmdb.ExplicitGenresIgnoreMood | lib/tmdb.ts:81-83 | with explicit genre picks the mood makes no difference |
| Tmdb.MoodGenresAllResolve | lib/tmdb.ts:84-89 | without picks, a known mood contributes one id per mood genre (none is dropped) |
| Tmdb.NoPicksNoMoodNoGenres | lib/tmdb.ts:81-86 | without picks and without a known mood there are no genre ids |
| Tmdb.TvOverridesOnlyActionAndSciFi | lib/tmdb.ts:88 | for names other than Action and Sci-Fi the TV ids equal the movie ids |
| Tmdb.IdListSplits | lib/tmdb.ts:110 | a '\|'-joined id list reads back as exactly the ids joined |
| Tmdb.BuildDiscoverParams | lib/tmdb.ts:92-170 | throws exactly for a movie query with undefined certifications; otherwise the dictionary holds exactly the keys that the pointwise rules of `ValueOf` give a value, with those values |
| Tmdb.FixedParamsAgree | lib/tmdb.ts:97-103 | the five fixed parameters are exactly what the first step sends |
| Tmdb.AddProviders | lib/tmdb.ts:105-111 | provider ids are sent, '\|'-joined, iff there are any; nothing else changes |
| Tmdb.AddGenres | lib/tmdb.ts:113-117 | genre ids are sent, '\|'-joined, iff there are any; nothing else changes |
| Tmdb.AddRating | lib/tmdb.ts:119-122 | a rating floor is sent iff the minimum rating is positive |
| Tmdb.AddRuntimeBounds | lib/tmdb.ts:124-138 | movie runtime bounds: short at most 90; medium 90 to 120; long at least 120; none for 'any', for TV or for no choice |
| Tmdb.AddReleaseDates | lib/tmdb.ts:140-161 | date bounds by year option, on the release date for movies and the first air date for TV; none for 'any' or a list value |
| Tmdb.DatesAgree | lib/tmdb.ts:141-161 | the date step is right once its two keys hold the year option's bounds and nothing else changed |
| Tmdb.AddCertifications | lib/tmdb.ts:163-167 | a movie query throws on undefined certifications; certification keys are sent only for movies with a non-empty list |
| Tmdb.AgreesAfterAllSteps | lib/tmdb.ts:169 | after all seven steps the dictionary is the pointwise one |
| Tmdb.FixedKeysAlwaysPresent | lib/tmdb.ts:97-103 | the five fixed parameters are always sent with their fixed values |
| Tmdb.DiscoverParamsLookup | lib/tmdb.ts:97-167 | a key is in the dictionary iff it has a value, and it then holds that value |
| Tmdb.SelectedAppIdsMembers | lib/tmdb.ts:187-192 | a service is picked up iff it is selected and some US provider maps to it |
| Tmdb.AvailableOnSpec | lib/tmdb.ts:172-195 | duplicate-free; holds exactly the selected services that some US provider entry maps to; empty without US data |
| Tmdb.ExtractAvailableOn | lib/tmdb.ts:172-195 | the loop over the US providers computes `AvailableOn` |
| Tmdb.MapGenreNames | lib/tmdb.ts:197-201 | every name is a genre-table key; a name appears iff it is the renamed form of some TMDB genre and is known |
| Tmdb.AliasesSurviveFiltering | lib/tmdb.ts:199-200 | TMDB's alias names are unknown to the app, but they survive because they are renamed before the filter |
| Tmdb.DetailsToItem | lib/tmdb.ts:212-231 | a kept title streams on some selected service, only on selected ones, and keeps its TMDB id |
| Tmdb.DetailsToItemSpec | lib/tmdb.ts:216 | a title is dropped exactly when it streams on no selected service; a kept title's genres are all known names |
| Tmdb.Present | lib/tmdb.ts:353-354 | `filter(item !== null)`: exactly the present items |
| Tmdb.Take | lib/tmdb.ts:321-324 | `slice(0, n)`: at most `n` and at most the input |
| Tmdb.Discovered | lib/tmdb.ts:315-325 | two pages cut to 10 per type for 'both', else 20 |
| Tmdb.FetchedItems | lib/tmdb.ts:341-346 | one entry per hit; each present one streams on a selected service |
| Tmdb.PresentItemsAvailable | lib/tmdb.ts:353-354 | dropping the nulls keeps only streamable items |
| Tmdb.Fetched | lib/tmdb.ts:341-354 | never more titles than hits, all streamable |
| Tmdb.Titles | lib/tmdb.ts:309-354 | a media type yields at most its quota |
| Tmdb.Interleaved | lib/tmdb.ts:358-365 | the merge's length is the sum of both lengths |
| Tmdb.InterleavedAlternates | lib/tmdb.ts:362-365 | while both lists last, position 2i holds movie i and position 2i+1 holds show i |
| Tmdb.InterleavedAt | lib/tmdb.ts:362-365 | the same, for one position i |
| Tmdb.InterleavedTail | lib/tmdb.ts:361-365 | after the shorter list ends, the rest of the longer follows in order |
| Tmdb.InterleavedPermutes | lib/tmdb.ts:358-365 | the merge is a permutation of the two lists together |
| Tmdb.Interleave | lib/tmdb.ts:358-365 | the push loop computes the alternating merge |
| Tmdb.InterleavedStep | lib/tmdb.ts:363-364 | one loop round appends the next movie, then the next show, each while its list lasts |
| Tmdb.Renumbered | lib/tmdb.ts:371 | display orders become 1..n; nothing else changes |
| Tmdb.FallbackItems | lib/tmdb.ts:404-409 | one entry per fallback hit; each present one streams on a selected service |
| Tmdb.FallbackIgnoresGenrePicks | lib/tmdb.ts:375-379 | the fallback does not depend on the explicit genre picks (a mood still applies) |
| Tmdb.PrimaryAvailableAndBounded | lib/tmdb.ts:305-368 | the first attempt has at most 20 titles, all streamable |
| Tmdb.FallbackAvailableAndBounded | lib/tmdb.ts:374-414 | the fallback has at most 20 titles, all streamable |
| Tmdb.FetchPrimary | lib/tmdb.ts:305-368 | throws exactly for a movie query with undefined certifications; otherwise yields the first-attempt catalogue |
| Tmdb.FetchFallback | lib/tmdb.ts:374-414 | yields the genre-free fallback catalogue |
| Tmdb.CatalogResultSpec | lib/tmdb.ts:301-418 | buildCatalog throws exactly for a movie query on undefined certifications; otherwise it returns at most 20 titles, every one streamable, with display orders 1..n, and it is the renumbered first attempt iff that attempt is non-empty |
| Tmdb.BuildCatalog | lib/tmdb.ts:301-418 | the method's result is the catalogue that `CatalogResultSpec` describes, including the error case and its message |
| SessionService.ToParticipant | lib/sessionService.ts:29-40 | every column carries over, avatar seed included; a null nickname reads as 'Guest' |
| SessionService.ToCatalogItem | lib/sessionService.ts:42-57 | ids, TMDB id, title, genres, services and display order carry over; each nullable column keeps its value, and reads as '' (text) or 0 (numbers) when null |
| SessionService.ToMatch | lib/sessionService.ts:59-76 | the item id, title, genres, services, counts, percentage and tier carry over; each nullable column keeps its value, and reads as '' or 0 when null; a missing enthusiasm average reads as 0 |
| SessionService.SeedRowRoundTrip | lib/sessionService.ts:203-215 | a seeded item read back is the item, with the store's id and the session's id |
| SessionService.CodeAlphabetDistinct | lib/sessionService.ts:80 | the code alphabet has 32 distinct symbols |
| SessionService.CodeAlphabetSymbols | lib/sessionService.ts:80 | the alphabet has only upper-case letters and the digits 2-9, without I, O, 0 or 1 |
| SessionService.Candidate | lib/sessionService.ts:84-87 | every candidate is six characters from the alphabet |
| SessionService.FirstFreeCandidate | lib/sessionService.ts:82-99 | a failure carries the "after 3 attempts" message |
| SessionService.FirstFreeCandidateSpec | lib/sessionService.ts:82-99 | generation fails iff all three candidates collide; otherwise it returns a valid code that is not in use, namely the first candidate whose predecessors all collided |
| SessionService.SessionStore.GenerateUniqueCode | lib/sessionService.ts:82-99 | the attempt loop computes `FirstFreeCandidate` |
| SessionService.SessionStore.DrawCode | lib/sessionService.ts:84-87 | the character loop builds the attempt's candidate |
| SessionService.LookupSessionByCode | lib/sessionService.ts:138-149 | none iff no session is joinable; a found session is the unique lobby session whose code is the upper-cased input and which has not expired; an error iff several match |
| SessionService.FetchCatalog | lib/sessionService.ts:221-230 | a permutation of the session's mapped rows, in ascending display order |
| SessionService.FetchCatalogMembers | lib/sessionService.ts:221-230 | only the session's items, and every one of them |
| SessionService.FetchParticipants | lib/sessionService.ts:186-195 | a permutation of the session's mapped rows, in ascending join time |
| SessionService.FetchMatches | lib/sessionService.ts:265-278 | a permutation of the session's rows that reach the threshold, in non-increasing percentage |
| SessionService.FetchMatchesMembers | lib/sessionService.ts:265-278 | every match reaches the threshold and comes from a row of the session; every such row is fetched |
| SessionService.SetStatus | lib/sessionService.ts:155-158 | only the status of rows with the id changes, whatever it was before |
| SessionService.SetSwipeProgress | lib/sessionService.ts:255-258 | only the progress of rows with the id changes, even to a smaller value |
| SessionService.SeedRows | lib/sessionService.ts:203-215 | one row per item, in order, carrying the item's fields and display order |
| SessionService.SeedThenFetch | lib/sessionService.ts:199-230 | seeding a fresh session with a catalogue numbered 1..n and fetching it back gives the same items in the same order |
| SessionService.SessionStore.constructor | lib/sessionService.ts:1 | the database behind the Supabase client starts with empty tables and a valid id counter |
| SessionService.SessionStore.CreateSession | lib/sessionService.ts:103-125 | appends one lobby session with a fresh id and the given threshold, or 0.5; no other table changes |
| SessionService.SessionStore.UpdateSessionStatus | lib/sessionService.ts:151-161 | the session table becomes `SetStatus`; no other table changes |
| SessionService.SessionStore.AddParticipant | lib/sessionService.ts:165-184 | appends one participant row with a fresh id and progress 0 and returns that row as a participant; no other table changes |
| SessionService.SessionStore.SeedCatalog | lib/sessionService.ts:199-219 | appends exactly the seeded rows, in order; no other table changes |
| SessionService.SessionStore.RecordSwipe | lib/sessionService.ts:234-249 | appends exactly one swipe row with the given fields and a fresh id, with no de-duplication |
| SessionService.SessionStore.UpdateSwipeProgress | lib/sessionService.ts:251-261 | the participant table becomes `SetSwipeProgress`; no other table changes |
| SessionService.CreatedSessionIsFound | lib/sessionService.ts:138-149 | a new lobby session is found by its code typed in any case until it expires, when no other joinable session shares the code |
| SessionService.StatusWritesAreUnchecked | lib/sessionService.ts:151-161 | a session set to 'completed' and then back to 'lobby' is the original row in the lobby, joinable again by its (upper-case) code until it expires: no transition check |
| UseParticipants.InsertParticipant | hooks/useParticipants.ts:41-56 | a known id leaves the list unchanged; a new one is appended at the end as the mapped row (`ToParticipant`), so a null nickname reads as 'Guest' |
| UseParticipants.InsertIdempotent | hooks/useParticipants.ts:53-55 | redelivering an INSERT changes nothing |
| UseParticipants.InsertKeepsIdsUnique | hooks/useParticipants.ts:53-55 | INSERTs keep the ids distinct |
| UseParticipants.UpdateParticipant | hooks/useParticipants.ts:66-79 | same length and order; only the entry with the id changes, only in progress and nickname; a null nickname keeps the old one |
| UseParticipants.UpdateUnknownId | hooks/useParticipants.ts:68-77 | an UPDATE for an unknown id leaves the list unchanged |
| UseParticipants.UpdateKeepsIdsAndIsIdempotent | hooks/useParticipants.ts:68-77 | UPDATEs keep the ids in order, and redelivering one changes nothing |
| UseParticipants.StatusError | hooks/useParticipants.ts:81-88 | TIMED_OUT or CHANNEL_ERROR set the lower-cased "Realtime connection ..." message; SUBSCRIBED clears it; other statuses keep it |
| UseParticipants.ParticipantsHook.constructor | hooks/useParticipants.ts:7-9 | an empty list, loading, no error |
| UseParticipants.ParticipantsHook.Load | hooks/useParticipants.ts:11-22 | no session: nothing happens; otherwise the fetched participants, or the error with the list kept; loading ends either way |
| UseParticipants.ParticipantsHook.OnInsert | hooks/useParticipants.ts:41-56 | the list becomes `InsertParticipant` of the old list |
| UseParticipants.ParticipantsHook.OnUpdate | hooks/useParticipants.ts:66-79 | the list becomes `UpdateParticipant` of the old list |
| UseParticipants.ParticipantsHook.OnStatus | hooks/useParticipants.ts:81-88 | the error becomes `StatusError`; the list and loading flag are untouched |
| SessionContext.ApplyFilterUpdate | lib/SessionContext.tsx:87-88 | the named key holds the new value and every other key keeps its own |
| SessionContext.FilterUpdateIsDetermined | lib/SessionContext.tsx:87-88 | those two facts determine the result: any filters satisfying them are the result |
| SessionContext.FilterUpdatesCommute | lib/SessionContext.tsx:87-88 | updates of different keys commute, and repeating an update changes nothing |
| SessionContext.DefaultFiltersQueries | lib/SessionContext.tsx:31-38 | with the default filters, a movie query throws; a TV query does not throw and sends no air-date bounds, no lower runtime bound and no genres |
| SessionContext.DisplayName | app/create/filters.tsx:90 | `nickname \|\| fallback`: the fallback exactly when the nickname is empty |
| SessionContext.SessionProvider.constructor | lib/SessionContext.tsx:43-53 | the initial state: no session, threshold 0.5, not host, empty nickname and services, default filters, card 0 |
| SessionContext.SessionProvider.SetSessionCode | lib/SessionContext.tsx:55-56 | only the code changes |
| SessionContext.SessionProvider.SetSessionId | lib/SessionContext.tsx:58-59 | only the session id changes |
| SessionContext.SessionProvider.SetParticipantId | lib/SessionContext.tsx:61-62 | only the participant id changes |
| SessionContext.SessionProvider.SetMatchThreshold | lib/SessionContext.tsx:64-65 | only the threshold changes |
| SessionContext.SessionProvider.SetIsHost | lib/SessionContext.tsx:67-68 | only the host flag changes |
| SessionContext.SessionProvider.SetNickname | lib/SessionContext.tsx:70-71 | only the nickname changes |
| SessionContext.SessionProvider.SetSelectedServices | lib/SessionContext.tsx:73-74 | only the services change |
| SessionContext.SessionProvider.ToggleService | lib/SessionContext.tsx:76-82 | only the services change: the toggled one's membership flips, and the others keep membership and order |
| SessionContext.SessionProvider.SetFilters | lib/SessionContext.tsx:84-85 | only the filters change |
| SessionContext.SessionProvider.UpdateFilter | lib/SessionContext.tsx:87-88 | only the named filter key changes |
| SessionContext.SessionProvider.SetCurrentCardIndex | lib/SessionContext.tsx:90-91 | only the card index changes |
| SessionContext.SessionProvider.ResetSession | lib/SessionContext.tsx:93-104 | exactly the initial state |
| CreateFilters.Chars | app/create/filters.tsx:293 | spreading a string gives its one-character strings |
| CreateFilters.YearToggle | app/create/filters.tsx:280-294 | on a list: membership toggle; on the plain string: throws iff the option is a substring, otherwise a list of the string's characters, one per entry, followed by the option |
| CreateFilters.ToggleChoice | app/create/filters.tsx:193-194 | pressing the current choice clears it; pressing another selects it (also the mood press at line 237) |
| CreateFilters.PressUpdate | app/create/filters.tsx:148-356 | the update a press makes always names the press's own key; it throws only for a year press on a plain string containing the option, or a certification press on an absent list |
| CreateFilters.Pressed | app/create/filters.tsx:148-356 | a press changes no filter key but its own |
| CreateFilters.PressWritesItsValue | app/create/filters.tsx:148-356 | under its own key a press writes: the content type, runtime or rating pressed; the animation or mood selected, or cleared when it was already selected; for a genre, a year on a list or a certification on a list, the pressed option's membership flips and the other options keep their order |
| CreateFilters.TogglePressTwiceRestores | app/create/filters.tsx:52-58 | a genre, year, certification, animation or mood press repeated restores the filters |
| CreateFilters.SettingPressIsIdempotent | app/create/filters.tsx:260 | content-type, runtime and rating presses (lines 148, 260, 322) are idempotent |
| Tmdb.ListYearSendsNoDates | lib/tmdb.ts:141-161 | a year filter held as a list matches no `switch` case, so neither date bound is sent, for movies or TV |
| CreateFilters.DefaultYearPressIsIgnored | app/create/filters.tsx:288-294 | on the default filters a year press gives `['a','n','y',id]`, which sends no date bound |
| CreateFilters.YearOptionsOutgrowAny | lib/constants.ts:53-59 | every year option except 'any' is longer than 'any' |
| CreateFilters.FiltersScreen.constructor | app/create/filters.tsx:50 | the screen starts bound to the session context and not creating |
| CreateFilters.FiltersScreen.OnPress | app/create/filters.tsx:148-356 | the context's filters take `PressUpdate`'s update, or stay when the press throws (the handler as it would run if the screen rendered) |
| CreateFilters.FiltersScreen.HandleGenerateCode | app/create/filters.tsx:60-111 | ignored while creating; a code failure changes nothing; otherwise the session row is written, and the rest follows `Launched` (the handler as it would run if the screen rendered) |
| CreateFilters.FiltersScreen.Launch | app/create/filters.tsx:70-98 | the session is written first; a throwing or empty catalogue stops before seeding and joining; otherwise the host joins as `HostJoined` says |
| CreateFilters.FiltersScreen.JoinAsHost | app/create/filters.tsx:85-98 | seeds the catalogue, adds the host under the nickname or 'Host', and records code, ids and threshold in the context |
| CodeEntry.Sanitize | app/index.tsx:40 | the kept text has only A-Z and 0-9 and is never longer |
| CodeEntry.SanitizeIdempotent | app/index.tsx:40 | sanitising twice is sanitising once |
| CodeEntry.SanitizeOneChar | app/index.tsx:40 | a lower-case letter is upper-cased, a code character kept, anything else dropped |
| CodeEntry.SanitizeAppend | app/index.tsx:40 | sanitising two pieces of text and joining them is sanitising the joined text |
| CodeEntry.SanitizeKeepsGeneratedCode | app/index.tsx:40 | a generated code survives sanitising unchanged |
| CodeEntry.WriteSlot | app/index.tsx:39-42 | only box `index` changes, to the sanitised text; still six boxes |
| CodeEntry.NextFocus | app/index.tsx:44-46 | focus moves to the next box iff something was kept and the box is not the last |
| CodeEntry.Backspace | app/index.tsx:49-56 | Backspace in an empty box after the first clears only the box before; any other press changes nothing |
| CodeEntry.JoinedLength | app/index.tsx:91 | with one character per box, the joined code is full length iff every box is filled |
| CodeEntry.JoinGuardMatchesButton | app/index.tsx:61-62 | the handler's length guard equals the button's completeness test |
| CodeEntry.PastedCodeBypassesButton | app/index.tsx:91 | without the one-character limit, six characters in one box pass the length guard although the button is disabled |
| CodeEntry.WriteSlotKeepsSingleChars | app/index.tsx:159 | writes of at most one character keep one character per box |
| CodeEntry.TypeCode | app/index.tsx:38-47 | typing several characters keeps six boxes |
| CodeEntry.TypeCodeBoxes | app/index.tsx:38-47 | typed boxes hold the sanitised characters; the others are unchanged |
| CodeEntry.TypeCodeAt | app/index.tsx:38-47 | one box after typing: the sanitised character typed into it, or its old text when typing did not reach it |
| CodeEntry.JoinedSingletons | app/index.tsx:61 | boxes of single characters join back to the characters |
| CodeEntry.SanitizeKeepsCodeChar | lib/sessionService.ts:80 | a code-alphabet character is its own sanitised text |
| CodeEntry.TypedCodeJoinsBack | app/index.tsx:38-62 | a generated code typed box by box fills every box and joins back to the code |
| CodeEntry.JoinByCode | app/index.tsx:65-83 | a lookup error or a missing session adds nobody and leaves the context; a found session is joined as `GuestJoined` says |
| CodeEntry.JoinAsGuest | app/index.tsx:70-82 | adds a non-host participant and records code, ids, threshold, services and guest role (and the nickname when asked) |
| Welcome.WelcomeScreen.constructor | app/index.tsx:30-58 | six empty boxes, not joining |
| Welcome.WelcomeScreen.HandleStartSession | app/index.tsx:33-36 | only the host flag is set |
| Welcome.WelcomeScreen.HandleCodeChange | app/index.tsx:38-47 | the boxes become `WriteSlot`, the focus `NextFocus` |
| Welcome.WelcomeScreen.HandleCodeKeyPress | app/index.tsx:49-56 | the boxes become `Backspace`; focus moves back exactly when a box is cleared |
| Welcome.WelcomeScreen.HandleJoinSession | app/index.tsx:60-89 | ignored unless the code has six characters and no join is running; otherwise the join effect with the name 'Guest' |
| EnterCode.EnterCodeScreen.constructor | app/join/enter-code.tsx:29-53 | six empty boxes, empty nickname, not joining |
| EnterCode.EnterCodeScreen.SetNickname | app/join/enter-code.tsx:140 | only the nickname changes |
| EnterCode.EnterCodeScreen.HandleCodeChange | app/join/enter-code.tsx:33-42 | the boxes become `WriteSlot`, the focus `NextFocus` |
| EnterCode.EnterCodeScreen.HandleCodeKeyPress | app/join/enter-code.tsx:44-51 | the boxes become `Backspace`; focus moves back exactly when a box is cleared |
| EnterCode.EnterCodeScreen.HandleJoin | app/join/enter-code.tsx:55-86 | ignored unless the code has six characters and no join is running; otherwise the join effect under the nickname or 'Guest', which the context also records |

## Left out

- HTTP, the database and the realtime channel are not modelled as I/O:
  - TMDB answers are the `discover` and `details` parameters;
  - database tables are sequences in `SessionStore`;
  - channel delivery is a call of a hook handler;
  - `Promise.all` fan-out and channel teardown are not modelled.
- Store failures are not modelled. The in-memory store never fails, so the `if (error) throw error` paths of the write operations do not occur. `maybeSingle`'s multiple-row error is modelled.
- `fetchSession` (lib/sessionService.ts:127-136) is a plain read by id and is not part of this model.
- `getDiscoverPreviewUrls` (lib/tmdb.ts:273-299) is left out; it is URL encoding over `buildDiscoverParams`.
- `tmdbFetch`'s API-key check and URL building are left out.
- Tmdb.DetailsToItem: the following fields are taken as given by the `details` parameter, because they are floating point or string formatting:
  - the poster URL prefix;
  - rating rounding to one decimal;
  - the TV run-time average;
  - the year parsed from a date.
- A discovery hit's `'title' in r` test is its `hasTitle` field.
- Text.Upper: only ASCII letters are upper-cased. JavaScript's full Unicode case mapping is not modelled. That mapping can lengthen a string ('ß' becomes "SS"), so `Sanitize` never being longer than its input, and `SingleChars` for the code boxes, are facts of this model and not of the app.
- SessionService.SeedRows: always uses the item's own display order. The `?? i + 1` fallback only applies to an item without one, which a typed item cannot be.
- The match view computes tiers, percentages and swipe counts in the database. Only its rows, their threshold filter and their order are modelled.
- Match rows' numeric columns are taken as already converted by `Number(...)`.
- Ids are store-issued natural numbers instead of UUID strings.
- Timestamps are integers. The lookup's ISO-string comparison is integer comparison.
- `now`, `expiresAt`, `avatarSeed` and `joined_at` are parameters.
- The filter screen passes an `avatarSeed` that the context does not have, and `addParticipant` does not send it. The model uses the column default.
- Random draws are a sequence of `Draw` indices, 18 of them: three attempts of six characters.
- CreateFilters.FiltersScreen.HandleGenerateCode: the `creating` flag is always reset before the method returns, because the model is sequential. Overlapping presses during an await are not modelled. The same holds for the `joining` flag of both join screens.
- CreateFilters.FiltersScreen.OnPress: the filter screen as written throws while rendering, and the model does not capture that.
  - `CERTIFICATION_OPTIONS` is imported (app/create/filters.tsx:23), but lib/constants.ts does not define it. So `CERTIFICATION_OPTIONS.map` at line 341 throws on every render, whatever the filters hold. The certification options are a section of the one filter screen, not a separate screen.
  - The render error falls through to the error boundary (app/_layout.tsx:18-21), so no option press and no "Generate Code" press can happen.
  - `OnPress`, `HandleGenerateCode`, `Launch`, `JoinAsHost`, `PressUpdate` and `Pressed` therefore model the handlers as they would behave if the screen rendered.
  - Even with the constant defined, the section's `filters.certifications.includes` (line 342) would throw on the default filters, where the list is undefined. The model reports a certification press on an absent list with that render-time `includes` error (`IncludesOfUndefined`), not with the error of the handler's own spread at line 355, which would never be reached.
- Error texts: `FilterIsNotAFunction`, `IncludesOfUndefined` and `Tmdb.TypeErrorMessage` follow the V8 engine's wording of the TypeErrors. Other JavaScript engines, such as Hermes, word them differently. The texts reach the user through the alert at app/create/filters.tsx:107.
- The 20-character nickname limit and the one-character box limit are input-widget properties and are not enforced. `SingleChars` states the box limit where a lemma needs it.
- Haptics, Sentry, alerts and navigation are not modelled. The outcome datatypes say which alert or screen follows.
- React's batching of state updates is not modelled: each setter takes effect at once.
- The 500 ms debounce of the match hook and the lobby's "at least two participants" button are outside the modelled files.
