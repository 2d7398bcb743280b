/** app/index.tsx: the welcome screen. "Start New Session" marks the device
    as the host; the six code boxes and "Enter Room" join an existing
    session as a guest named 'Guest'. Navigation and alerts are left out:
    the join outcome says which follows. */
module Welcome {
  import opened Wrappers
  import opened Types
  import opened SessionContext
  import opened CodeEntry
  import SessionService

  class WelcomeScreen {
    const ctx: SessionProvider
    var code: seq<string>
    var joining: bool

    /** The screen always shows six boxes. */
    predicate Valid()
      reads this
    {
      |code| == SlotCount
    }

    constructor(ctx: SessionProvider)
      ensures Valid() && this.ctx == ctx && code == EmptyCode && !joining
    {
      this.ctx := ctx;
      code := EmptyCode;
      joining := false;
    }

    /** handleStartSession. */
    method HandleStartSession()
      modifies ctx
      ensures ctx.state == old(ctx.state).(isHost := true)
    {
      ctx.SetIsHost(true);
    }

    /** handleCodeChange: box `index` takes the sanitized text; the focus
        moves on when something was kept. */
    method HandleCodeChange(text: string, index: nat) returns (focus: Option<nat>)
      requires Valid() && index < SlotCount
      modifies this
      ensures Valid() && joining == old(joining)
      ensures code == WriteSlot(old(code), index, text)
      ensures focus == NextFocus(text, index)
    {
      code := WriteSlot(code, index, text);
      focus := NextFocus(text, index);
    }

    /** handleCodeKeyPress: Backspace in an empty box focuses and clears
        the box before it. */
    method HandleCodeKeyPress(key: string, index: nat) returns (focus: Option<nat>)
      requires Valid() && index < SlotCount
      modifies this
      ensures Valid() && joining == old(joining)
      ensures code == Backspace(old(code), key, index)
      ensures focus == (if ClearsPrevious(old(code), key, index) then Some(index - 1) else None)
    {
      focus := if ClearsPrevious(code, key, index) then Some(index - 1) else None;
      code := Backspace(code, key, index);
    }

    /** handleJoinSession: ignored unless the boxes join to six characters
        and no join is in progress; otherwise the code is looked up and the
        device joins as 'Guest'. */
    method HandleJoinSession(store: SessionService.SessionStore, deviceId: string, avatarSeed: int, now: int)
      returns (outcome: JoinOutcome)
      requires Valid() && store.Valid()
      modifies this, store, ctx
      ensures Valid() && store.Valid() && code == old(code) && joining == old(joining)
      ensures store.sessions == old(store.sessions) && store.catalogItems == old(store.catalogItems)
      ensures store.swipes == old(store.swipes)
      ensures |JoinedCode(old(code))| != SlotCount || old(joining) ==>
        outcome == JoinIgnored && store.participants == old(store.participants) && ctx.state == old(ctx.state)
      ensures |JoinedCode(old(code))| == SlotCount && !old(joining) ==>
        JoinEffect(SessionService.LookupSessionByCode(old(store.sessions), JoinedCode(old(code)), now),
                   old(store.participants), old(store.nextId), old(ctx.state),
                   deviceId, "Guest", false, avatarSeed, now, store.participants, ctx.state, outcome)
    {
      var fullCode := JoinedCode(code);
      if |fullCode| != SlotCount || joining {
        return JoinIgnored;
      }
      joining := true;
      outcome := JoinByCode(store, ctx, fullCode, deviceId, "Guest", false, avatarSeed, now);
      joining := false;
    }
  }
}
