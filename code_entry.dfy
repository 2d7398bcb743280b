/** The six-box code entry and the guest join shared by the welcome screen
    (app/index.tsx) and the join screen (app/join/enter-code.tsx): each box
    holds the sanitized text typed into it, Backspace in an empty box clears
    the box before it, and joining looks the code up and adds the device as
    a guest. Keyboard focus is returned as the box to focus next. */
module CodeEntry {
  import opened Wrappers
  import opened Lists
  import opened Text
  import opened Types
  import opened SessionContext
  import SessionService

  const SlotCount: nat := 6

  const EmptyCode: seq<string> := ["", "", "", "", "", ""]

  predicate IsCodeChar(c: char) {
    'A' <= c <= 'Z' || '0' <= c <= '9'
  }

  /** `text.toUpperCase().replace(/[^A-Z0-9]/g, '')`. */
  function Sanitize(text: string): (r: string)
    ensures |r| <= |text|
    ensures forall i :: 0 <= i < |r| ==> IsCodeChar(r[i])
  {
    var kept := Filter(Upper(text), IsCodeChar);
    assert forall i :: 0 <= i < |kept| ==> kept[i] in kept;
    kept
  }

  /** Sanitizing twice is sanitizing once. */
  lemma SanitizeIdempotent(text: string)
    ensures Sanitize(Sanitize(text)) == Sanitize(text)
  {
    var s := Sanitize(text);
    assert Upper(s) == s;
    FilterKeepsAll(s, IsCodeChar);
  }

  /** Lower-case letters are upper-cased, code characters kept, and
      everything else dropped. */
  lemma SanitizeOneChar(c: char)
    ensures 'a' <= c <= 'z' ==> Sanitize([c]) == [UpperChar(c)]
    ensures IsCodeChar(c) ==> Sanitize([c]) == [c]
    ensures !IsCodeChar(UpperChar(c)) ==> Sanitize([c]) == []
  {
    assert Upper([c]) == [UpperChar(c)];
    assert [UpperChar(c)][1..] == [];
  }

  /** Sanitizing works character by character: text typed in two pieces
      is sanitized as the two pieces joined. */
  lemma SanitizeAppend(a: string, b: string)
    ensures Sanitize(a + b) == Sanitize(a) + Sanitize(b)
  {
    assert Upper(a + b) == Upper(a) + Upper(b);
    FilterAppend(Upper(a), Upper(b), IsCodeChar);
  }

  /** A generated code survives sanitizing unchanged. */
  lemma SanitizeKeepsGeneratedCode(code: string)
    requires SessionService.ValidCode(code)
    ensures Sanitize(code) == code
  {
    SessionService.CodeAlphabetSymbols();
    assert forall i :: 0 <= i < |code| ==> code[i] in code;
    assert Upper(code) == code;
    FilterKeepsAll(code, IsCodeChar);
  }

  /** handleCodeChange's new boxes: box `index` takes the sanitized text,
      the others keep theirs. */
  function WriteSlot(code: seq<string>, index: nat, text: string): (r: seq<string>)
    requires index < |code|
    ensures |r| == |code| && r[index] == Sanitize(text)
    ensures forall j :: 0 <= j < |code| && j != index ==> r[j] == code[j]
  {
    code[index := Sanitize(text)]
  }

  /** handleCodeChange's focus move: to the next box when something was
      kept and this is not the last box. */
  function NextFocus(text: string, index: nat): (r: Option<nat>)
    ensures r.Some? <==> Sanitize(text) != "" && index < SlotCount - 1
    ensures r.Some? ==> r.value == index + 1 && r.value < SlotCount
  {
    if Sanitize(text) != "" && index < SlotCount - 1 then Some(index + 1) else None
  }

  /** handleCodeKeyPress acts on Backspace in an empty box other than the
      first. */
  predicate ClearsPrevious(code: seq<string>, key: string, index: nat)
    requires index < |code|
  {
    key == "Backspace" && code[index] == "" && index > 0
  }

  /** handleCodeKeyPress's new boxes: the box before is cleared when the
      key press acts, and nothing changes otherwise. */
  function Backspace(code: seq<string>, key: string, index: nat): (r: seq<string>)
    requires index < |code|
    ensures |r| == |code|
    ensures ClearsPrevious(code, key, index) ==> r[index - 1] == "" && forall j :: 0 <= j < |code| && j != index - 1 ==> r[j] == code[j]
    ensures !ClearsPrevious(code, key, index) ==> r == code
  {
    if ClearsPrevious(code, key, index) then code[index - 1 := ""] else code
  }

  /** `code.join('')`. */
  function JoinedCode(code: seq<string>): string {
    if code == [] then "" else code[0] + JoinedCode(code[1..])
  }

  /** `code.every((c) => c !== '')`: the join button is enabled. */
  predicate IsComplete(code: seq<string>) {
    forall i :: 0 <= i < |code| ==> code[i] != ""
  }

  /** Every box holds at most one character (the inputs' `maxLength`). */
  predicate SingleChars(code: seq<string>) {
    forall i :: 0 <= i < |code| ==> |code[i]| <= 1
  }

  lemma {:induction false} JoinedLength(code: seq<string>)
    requires SingleChars(code)
    ensures |JoinedCode(code)| <= |code|
    ensures |JoinedCode(code)| == |code| <==> IsComplete(code)
  {
    if code != [] {
      JoinedLength(code[1..]);
      assert IsComplete(code) <==> code[0] != "" && IsComplete(code[1..]);
    }
  }

  /** With one character per box, the handlers' length test on the joined
      code is exactly the button's completeness test. */
  lemma JoinGuardMatchesButton(code: seq<string>)
    requires |code| == SlotCount && SingleChars(code)
    ensures |JoinedCode(code)| == SlotCount <==> IsComplete(code)
  {
    JoinedLength(code);
  }

  /** Without the one-character limit the two tests differ: six characters
      in the first box pass the handlers' length test while the button
      stays disabled. */
  lemma PastedCodeBypassesButton()
    ensures var code := ["ABCDEF", "", "", "", "", ""];
      |JoinedCode(code)| == SlotCount && !IsComplete(code)
  {
    var code := ["ABCDEF", "", "", "", "", ""];
    assert JoinedCode(code[5..]) == "";
    assert JoinedCode(code[4..]) == "";
    assert JoinedCode(code[3..]) == "";
    assert JoinedCode(code[2..]) == "";
    assert JoinedCode(code[1..]) == "";
  }

  /** Writes of at most one character keep one character per box. */
  lemma WriteSlotKeepsSingleChars(code: seq<string>, index: nat, text: string)
    requires index < |code| && SingleChars(code) && |text| <= 1
    ensures SingleChars(WriteSlot(code, index, text))
  {
  }

  /** Typing `chars` one character per box from box `index` on. */
  function TypeCode(code: seq<string>, chars: string, index: nat): (r: seq<string>)
    requires index + |chars| <= |code|
    ensures |r| == |code|
    decreases |chars|
  {
    if chars == [] then code else TypeCode(WriteSlot(code, index, [chars[0]]), chars[1..], index + 1)
  }

  lemma TypeCodeBoxes(code: seq<string>, chars: string, index: nat)
    requires index + |chars| <= |code|
    ensures forall j :: index <= j < index + |chars| ==> TypeCode(code, chars, index)[j] == Sanitize([chars[j - index]])
    ensures forall j :: 0 <= j < |code| && !(index <= j < index + |chars|) ==> TypeCode(code, chars, index)[j] == code[j]
  {
    forall j | 0 <= j < |code|
      ensures index <= j < index + |chars| ==> TypeCode(code, chars, index)[j] == Sanitize([chars[j - index]])
      ensures !(index <= j < index + |chars|) ==> TypeCode(code, chars, index)[j] == code[j]
    {
      TypeCodeAt(code, chars, index, j);
    }
  }

  /** Box `j` after typing: the sanitised character typed into it, or what
      it held before. */
  lemma {:induction false} TypeCodeAt(code: seq<string>, chars: string, index: nat, j: nat)
    requires index + |chars| <= |code| && j < |code|
    ensures index <= j < index + |chars| ==> TypeCode(code, chars, index)[j] == Sanitize([chars[j - index]])
    ensures !(index <= j < index + |chars|) ==> TypeCode(code, chars, index)[j] == code[j]
    decreases |chars|
  {
    if chars != [] {
      var written := WriteSlot(code, index, [chars[0]]);
      TypeCodeAt(written, chars[1..], index + 1, j);
      if index < j < index + |chars| {
        assert chars[j - index] == chars[1..][j - (index + 1)];
      }
    }
  }

  lemma {:induction false} JoinedSingletons(code: seq<string>, chars: string)
    requires |code| == |chars|
    requires forall j :: 0 <= j < |code| ==> code[j] == [chars[j]]
    ensures JoinedCode(code) == chars
  {
    if code != [] {
      JoinedSingletons(code[1..], chars[1..]);
      assert chars == [chars[0]] + chars[1..];
    }
  }

  /** A character of the code alphabet is its own sanitized text. */
  lemma SanitizeKeepsCodeChar(c: char)
    requires c in SessionService.CodeChars
    ensures Sanitize([c]) == [c]
  {
    SessionService.CodeAlphabetSymbols();
    SanitizeOneChar(c);
  }

  /** A generated code typed box by box, over whatever the boxes held,
      fills every box and joins back to the code itself. */
  lemma TypedCodeJoinsBack(code: seq<string>, generated: string)
    requires |code| == SlotCount && SessionService.ValidCode(generated)
    ensures IsComplete(TypeCode(code, generated, 0))
    ensures JoinedCode(TypeCode(code, generated, 0)) == generated
  {
    var r := TypeCode(code, generated, 0);
    TypeCodeBoxes(code, generated, 0);
    forall j | 0 <= j < |generated|
      ensures r[j] == [generated[j]]
    {
      assert r[j] == Sanitize([generated[j]]);
      assert generated[j] in generated;
      SanitizeKeepsCodeChar(generated[j]);
    }
    assert |r| == |generated|;
    JoinedSingletons(r, generated);
  }

  /** Which alert or screen follows a join attempt. */
  datatype JoinOutcome =
    | JoinIgnored
    | NotFound
    | JoinFailed(message: string)
    | Joined(sessionId: Id, participantId: Id)

  /** The guest's join once the session is found: the device is added as a
      non-host participant under `nickname`, and the context records the
      session's code, id, threshold and services, the new participant and
      the guest role (and the nickname, when `setsNickname`). */
  ghost predicate GuestJoined(
    participants0: seq<SessionService.ParticipantRow>, nextId0: Id, state0: SessionState,
    session: Session, deviceId: string, nickname: string, setsNickname: bool, avatarSeed: int, now: int,
    participants: seq<SessionService.ParticipantRow>, state: SessionState, outcome: JoinOutcome)
  {
    var joinedState := state0.(sessionCode := Some(session.code), sessionId := Some(session.id),
      participantId := Some(nextId0), matchThreshold := session.matchThreshold,
      selectedServices := session.streamingServices, isHost := false);
    && outcome == Joined(session.id, nextId0)
    && participants == participants0 + [SessionService.ParticipantRow(
         nextId0, session.id, deviceId, Some(nickname), avatarSeed, false, 0, now)]
    && state == (if setsNickname then joinedState.(nickname := nickname) else joinedState)
  }

  /** The join attempt's effect, given what the lookup returned. */
  ghost predicate JoinEffect(
    found: Result<Option<Session>>,
    participants0: seq<SessionService.ParticipantRow>, nextId0: Id, state0: SessionState,
    deviceId: string, nickname: string, setsNickname: bool, avatarSeed: int, now: int,
    participants: seq<SessionService.ParticipantRow>, state: SessionState, outcome: JoinOutcome)
  {
    && (found.Err? ==> outcome == JoinFailed(found.message) && participants == participants0 && state == state0)
    && (found == Ok(None) ==> outcome == NotFound && participants == participants0 && state == state0)
    && (found.Ok? && found.value.Some? ==>
         GuestJoined(participants0, nextId0, state0, found.value.value, deviceId, nickname, setsNickname,
                     avatarSeed, now, participants, state, outcome))
  }

  /** Looks the typed code up and, when one session matches, joins it as a
      guest. `now` is the clock the lookup compares expiry with and the
      database's `joined_at` default; `avatarSeed` is the database's
      default. */
  method JoinByCode(store: SessionService.SessionStore, ctx: SessionProvider, fullCode: string,
                    deviceId: string, nickname: string, setsNickname: bool, avatarSeed: int, now: int)
    returns (outcome: JoinOutcome)
    requires store.Valid()
    modifies store, ctx
    ensures store.Valid()
    ensures store.sessions == old(store.sessions) && store.catalogItems == old(store.catalogItems)
    ensures store.swipes == old(store.swipes)
    ensures JoinEffect(SessionService.LookupSessionByCode(old(store.sessions), fullCode, now),
                       old(store.participants), old(store.nextId), old(ctx.state),
                       deviceId, nickname, setsNickname, avatarSeed, now,
                       store.participants, ctx.state, outcome)
  {
    var found := SessionService.LookupSessionByCode(store.sessions, fullCode, now);
    match found {
      case Err(message) =>
        return JoinFailed(message);
      case Ok(None) =>
        return NotFound;
      case Ok(Some(session)) =>
        outcome := JoinAsGuest(store, ctx, session, deviceId, nickname, setsNickname, avatarSeed, now);
    }
  }

  method JoinAsGuest(store: SessionService.SessionStore, ctx: SessionProvider, session: Session,
                     deviceId: string, nickname: string, setsNickname: bool, avatarSeed: int, now: int)
    returns (outcome: JoinOutcome)
    requires store.Valid()
    modifies store, ctx
    ensures store.Valid()
    ensures store.sessions == old(store.sessions) && store.catalogItems == old(store.catalogItems)
    ensures store.swipes == old(store.swipes)
    ensures GuestJoined(old(store.participants), old(store.nextId), old(ctx.state), session, deviceId, nickname,
                        setsNickname, avatarSeed, now, store.participants, ctx.state, outcome)
  {
    var participant := store.AddParticipant(session.id, deviceId, nickname, false, avatarSeed, now);
    ctx.SetSessionCode(Some(session.code));
    ctx.SetSessionId(Some(session.id));
    ctx.SetParticipantId(Some(participant.id));
    ctx.SetMatchThreshold(session.matchThreshold);
    ctx.SetSelectedServices(session.streamingServices);
    ctx.SetIsHost(false);
    if setsNickname {
      ctx.SetNickname(nickname);
    }
    return Joined(session.id, participant.id);
  }
}
