/** hooks/useParticipants.ts: the participant list a screen shows, loaded
    from the store and kept current by realtime INSERT and UPDATE events
    on the session's participant rows. The channel itself (subscription,
    delivery, teardown) is outside the model: each delivered event is a
    call of the matching handler. */
module UseParticipants {
  import opened Wrappers
  import opened Lists
  import opened Types
  import SessionService

  function Ids(ps: seq<Participant>): seq<Id> {
    Map(ps, (p: Participant) => p.id)
  }

  predicate HasId(ps: seq<Participant>, id: Id) {
    exists i :: 0 <= i < |ps| && ps[i].id == id
  }

  /** The INSERT updater: a participant whose id is already listed is
      ignored; a new one is appended. The row becomes a participant as in
      the store's mapper, so a null nickname reads as 'Guest'. */
  function InsertParticipant(prev: seq<Participant>, row: SessionService.ParticipantRow): (r: seq<Participant>)
    ensures HasId(prev, row.id) ==> r == prev
    ensures !HasId(prev, row.id) ==> |r| == |prev| + 1 && r[..|prev|] == prev && r[|prev|].id == row.id
    ensures !HasId(prev, row.id) ==> r[|prev|] == SessionService.ToParticipant(row)
    ensures !HasId(prev, row.id) && row.nickname.None? ==> r[|prev|].nickname == "Guest"
  {
    if HasId(prev, row.id) then prev else prev + [SessionService.ToParticipant(row)]
  }

  /** Redelivering an INSERT changes nothing. */
  lemma InsertIdempotent(prev: seq<Participant>, row: SessionService.ParticipantRow)
    ensures InsertParticipant(InsertParticipant(prev, row), row) == InsertParticipant(prev, row)
  {
    var once := InsertParticipant(prev, row);
    if !HasId(prev, row.id) {
      assert once[|prev|].id == row.id;
    }
  }

  /** Inserts keep the listed ids distinct. */
  lemma InsertKeepsIdsUnique(prev: seq<Participant>, row: SessionService.ParticipantRow)
    requires NoDups(Ids(prev))
    ensures NoDups(Ids(InsertParticipant(prev, row)))
  {
    var r := InsertParticipant(prev, row);
    if !HasId(prev, row.id) {
      forall i, j | 0 <= i < j < |r|
        ensures Ids(r)[i] != Ids(r)[j]
      {
        if j < |prev| {
          assert Ids(r)[i] == Ids(prev)[i] && Ids(r)[j] == Ids(prev)[j];
        } else {
          assert Ids(r)[i] == prev[i].id;
        }
      }
    }
  }

  /** The UPDATE updater applied to one entry: the matching entry takes the
      row's progress, and its nickname unless the row's is null. */
  function ApplyUpdate(p: Participant, row: SessionService.ParticipantRow): Participant {
    if p.id == row.id then p.(swipeProgress := row.swipeProgress, nickname := row.nickname.GetOr(p.nickname))
    else p
  }

  /** The UPDATE updater: same length and order; only the entry with the
      row's id changes, and only in its progress and nickname. */
  function UpdateParticipant(prev: seq<Participant>, row: SessionService.ParticipantRow): (r: seq<Participant>)
    ensures |r| == |prev|
    ensures forall i :: 0 <= i < |r| && prev[i].id != row.id ==> r[i] == prev[i]
    ensures forall i :: 0 <= i < |r| && prev[i].id == row.id ==>
      && r[i] == prev[i].(swipeProgress := r[i].swipeProgress, nickname := r[i].nickname)
      && r[i].swipeProgress == row.swipeProgress
      && (row.nickname.Some? ==> r[i].nickname == row.nickname.value)
      && (row.nickname.None? ==> r[i].nickname == prev[i].nickname)
  {
    Map(prev, (p: Participant) => ApplyUpdate(p, row))
  }

  /** An UPDATE for an id not in the list leaves the list as it was. */
  lemma UpdateUnknownId(prev: seq<Participant>, row: SessionService.ParticipantRow)
    requires !HasId(prev, row.id)
    ensures UpdateParticipant(prev, row) == prev
  {
  }

  /** Updates keep the ids, in order, and redelivering one changes nothing. */
  lemma UpdateKeepsIdsAndIsIdempotent(prev: seq<Participant>, row: SessionService.ParticipantRow)
    ensures Ids(UpdateParticipant(prev, row)) == Ids(prev)
    ensures UpdateParticipant(UpdateParticipant(prev, row), row) == UpdateParticipant(prev, row)
  {
  }

  /** The realtime channel's statuses. */
  datatype ChannelStatus = Subscribed | TimedOut | ChannelError | Closed

  /** `Realtime connection ${status.toLowerCase()}` for a failed channel,
      cleared on subscription, unchanged otherwise. */
  function StatusError(status: ChannelStatus, current: Option<string>): (r: Option<string>)
    ensures status == Subscribed ==> r == None
    ensures status == TimedOut || status == ChannelError ==>
      r.Some? && |r.value| > 20 && r.value[..20] == "Realtime connection "
    ensures status == TimedOut ==> r == Some("Realtime connection timed_out")
    ensures status == ChannelError ==> r == Some("Realtime connection channel_error")
    ensures status == Closed ==> r == current
  {
    match status
    case TimedOut => Some("Realtime connection timed_out")
    case ChannelError => Some("Realtime connection channel_error")
    case Subscribed => None
    case Closed => current
  }

  class ParticipantsHook {
    const sessionId: Option<Id>
    var participants: seq<Participant>
    var loading: bool
    var error: Option<string>

    constructor(sessionId: Option<Id>)
      ensures this.sessionId == sessionId
      ensures participants == [] && loading && error == None
    {
      this.sessionId := sessionId;
      participants := [];
      loading := true;
      error := None;
    }

    /** load: without a session nothing happens; otherwise the session's
        participants replace the list, or the store's error is shown and
        the list is kept. `table` is the participant table, or the error
        the query failed with. */
    method Load(table: Result<seq<SessionService.ParticipantRow>>)
      modifies this
      ensures sessionId.None? ==> participants == old(participants) && loading == old(loading) && error == old(error)
      ensures sessionId.Some? && table.Ok? ==>
        participants == SessionService.FetchParticipants(table.value, sessionId.value) && error == None && !loading
      ensures sessionId.Some? && table.Err? ==>
        participants == old(participants) && error == Some(table.message) && !loading
    {
      if sessionId.None? {
        return;
      }
      error := None;
      match table {
        case Ok(rows) =>
          participants := SessionService.FetchParticipants(rows, sessionId.value);
        case Err(message) =>
          error := Some(message);
      }
      loading := false;
    }

    /** An INSERT event on the session's participant rows. */
    method OnInsert(row: SessionService.ParticipantRow)
      requires sessionId == Some(row.sessionId)
      modifies this
      ensures participants == InsertParticipant(old(participants), row)
      ensures loading == old(loading) && error == old(error)
    {
      participants := InsertParticipant(participants, row);
    }

    /** An UPDATE event on the session's participant rows. */
    method OnUpdate(row: SessionService.ParticipantRow)
      requires sessionId == Some(row.sessionId)
      modifies this
      ensures participants == UpdateParticipant(old(participants), row)
      ensures loading == old(loading) && error == old(error)
    {
      participants := UpdateParticipant(participants, row);
    }

    /** A change of the channel's status. */
    method OnStatus(status: ChannelStatus)
      modifies this
      ensures error == StatusError(status, old(error))
      ensures participants == old(participants) && loading == old(loading)
    {
      if status == TimedOut || status == ChannelError {
        error := Some(if status == TimedOut then "Realtime connection timed_out" else "Realtime connection channel_error");
      }
      if status == Subscribed {
        error := None;
      }
    }
  }
}
