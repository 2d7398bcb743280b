/** app/join/enter-code.tsx: the join screen. The same six code boxes as
    the welcome screen, plus an optional nickname; joining adds the device
    under the nickname, or 'Guest' when it is empty, and also records that
    name in the session context. Navigation and alerts are left out: the
    join outcome says which follows. */
module EnterCode {
  import opened Wrappers
  import opened Types
  import opened SessionContext
  import opened CodeEntry
  import SessionService

  class EnterCodeScreen {
    const ctx: SessionProvider
    var code: seq<string>
    var nickname: string
    var joining: bool

    /** The screen always shows six boxes. */
    predicate Valid()
      reads this
    {
      |code| == SlotCount
    }

    constructor(ctx: SessionProvider)
      ensures Valid() && this.ctx == ctx && code == EmptyCode && nickname == "" && !joining
    {
      this.ctx := ctx;
      code := EmptyCode;
      nickname := "";
      joining := false;
    }

    /** The nickname box's `onChangeText`. */
    method SetNickname(name: string)
      requires Valid()
      modifies this
      ensures Valid() && nickname == name && code == old(code) && joining == old(joining)
    {
      nickname := name;
    }

    /** handleCodeChange: box `index` takes the sanitized text; the focus
        moves on when something was kept. */
    method HandleCodeChange(text: string, index: nat) returns (focus: Option<nat>)
      requires Valid() && index < SlotCount
      modifies this
      ensures Valid() && joining == old(joining) && nickname == old(nickname)
      ensures code == WriteSlot(old(code), index, text)
      ensures focus == NextFocus(text, index)
    {
      code := WriteSlot(code, index, text);
      focus := NextFocus(text, index);
    }

    /** handleCodeKeyPress: Backspace in an empty box focuses and clears
        the box before it. */
    method HandleCodeKeyPress(key: string, index: nat) returns (focus: Option<nat>)
      requires Valid() && index < SlotCount
      modifies this
      ensures Valid() && joining == old(joining) && nickname == old(nickname)
      ensures code == Backspace(old(code), key, index)
      ensures focus == (if ClearsPrevious(old(code), key, index) then Some(index - 1) else None)
    {
      focus := if ClearsPrevious(code, key, index) then Some(index - 1) else None;
      code := Backspace(code, key, index);
    }

    /** handleJoin: ignored unless the boxes join to six characters and no
        join is in progress; otherwise the code is looked up and the device
        joins under its display name, which the context also records. */
    method HandleJoin(store: SessionService.SessionStore, deviceId: string, avatarSeed: int, now: int)
      returns (outcome: JoinOutcome)
      requires Valid() && store.Valid()
      modifies this, store, ctx
      ensures Valid() && store.Valid() && code == old(code) && nickname == old(nickname) && joining == old(joining)
      ensures store.sessions == old(store.sessions) && store.catalogItems == old(store.catalogItems)
      ensures store.swipes == old(store.swipes)
      ensures |JoinedCode(old(code))| != SlotCount || old(joining) ==>
        outcome == JoinIgnored && store.participants == old(store.participants) && ctx.state == old(ctx.state)
      ensures |JoinedCode(old(code))| == SlotCount && !old(joining) ==>
        JoinEffect(SessionService.LookupSessionByCode(old(store.sessions), JoinedCode(old(code)), now),
                   old(store.participants), old(store.nextId), old(ctx.state),
                   deviceId, DisplayName(old(nickname), "Guest"), true, avatarSeed, now,
                   store.participants, ctx.state, outcome)
    {
      var fullCode := JoinedCode(code);
      if |fullCode| != SlotCount || joining {
        return JoinIgnored;
      }
      joining := true;
      outcome := JoinByCode(store, ctx, fullCode, deviceId, DisplayName(nickname, "Guest"), true, avatarSeed, now);
      joining := false;
    }
  }
}
