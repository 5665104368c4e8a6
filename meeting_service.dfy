/** The meeting lifecycle: who may join, with which role and status, when a
    meeting starts and ends, admission from the waiting room, chat and
    participant updates. Each service operation is one atomic step over the
    store; `Join`, `Leave`, `End`, `Admit`, ... specify that step as a function
    of the store before it, and `MeetingService` performs it through the
    repository's writes. Password hashing is an injected pair of functions
    (`hash`, `passwordMatches`); `hash` being a function gives one hash per
    password, where bcrypt salts at random. */
module Lifecycle {
  import opened MeetingTypes
  import opened MeetingStore
  import MeetingModel

  const MsgNotFound := "Meeting not found"
  const MsgEnded := "Meeting has ended"
  const MsgCancelled := "Meeting has been cancelled"
  const MsgPasswordRequired := "Password required"
  const MsgInvalidPassword := "Invalid password"
  const MsgFull := "Meeting is full"
  const MsgAlreadyInMeeting := "Already in meeting"
  const MsgOnlyHostCanEnd := "Only host can end meeting"
  const MsgOnlyHostCanAdmit := "Only host can admit participants"

  /** A result together with the store after the step that produced it. */
  datatype Step<R> = Step(result: R, store: Store)

  datatype JoinResult =
    | Rejected(message: string)
    | Accepted(meeting: Meeting, participant: Participant)

  /** The `{ success, message? }` answer of end and admit. */
  datatype Outcome = Done | Refused(message: string)

  function Lookup(s: Store, meetingId: string): (r: Option<Meeting>)
    ensures r.Some? <==> meetingId in s
    ensures r.Some? ==> r.value == s[meetingId]
  {
    if meetingId in s then Some(s[meetingId]) else None
  }

  /** The meeting asks for a password: `requirePassword` is on and a stored
      (hashed) password is present. */
  predicate PasswordProtected(settings: MeetingSettings) {
    settings.requirePassword && Truthy(settings.password)
  }

  /** The first roster entry of this user is currently `joined`. */
  predicate AlreadyJoined(roster: seq<Participant>, userId: string) {
    var e := FirstEntry(roster, userId);
    e.Some? && e.value.status == Joined
  }

  /** The checks of `joinMeeting`, in the order they run: the message of the
      first that fails, or `None` when the join goes ahead. */
  function JoinRejection(found: Option<Meeting>, dto: JoinMeetingDto, matches: (string, string) -> bool)
    : Option<string>
  {
    if found.None? then Some(MsgNotFound)
    else
      var m := found.value;
      if m.status == Ended then Some(MsgEnded)
      else if m.status == Cancelled then Some(MsgCancelled)
      else if PasswordProtected(m.settings) && !Truthy(dto.password) then Some(MsgPasswordRequired)
      else if PasswordProtected(m.settings) && !matches(dto.password.value, m.settings.password.value)
      then Some(MsgInvalidPassword)
      else if JoinedCount(m.participants) >= m.settings.maxParticipants then Some(MsgFull)
      else if AlreadyJoined(m.participants, dto.userId) then Some(MsgAlreadyInMeeting)
      else None
  }

  function RoleFor(m: Meeting, userId: string): ParticipantRole {
    if m.hostId == userId then Host else Attendee
  }

  /** The roster entry a successful join pushes. */
  function NewParticipant(m: Meeting, dto: JoinMeetingDto, now: Time): Participant {
    var role := RoleFor(m, dto.userId);
    Participant(
      userId := dto.userId,
      name := dto.name,
      email := dto.email,
      role := role,
      status := if m.settings.waitingRoom && role != Host then Waiting else Joined,
      joinedAt := now,
      leftAt := None,
      isMuted := false,
      isVideoOff := false,
      isHandRaised := false,
      socketId := None,
      peerId := None)
  }

  /** `joinMeeting` as one step. The returned meeting is the document after
      the push, read before the host's join (if any) makes the meeting active. */
  function Join(s: Store, dto: JoinMeetingDto, matches: (string, string) -> bool, now: Time)
    : Step<JoinResult>
  {
    var found := Lookup(s, dto.meetingId);
    match JoinRejection(found, dto, matches)
    case Some(msg) => Step(Rejected(msg), s)
    case None =>
      var m := found.value;
      var p := NewParticipant(m, dto, now);
      var pushed := m.(participants := m.participants + [p]);
      var stored := if p.role == Host && m.status == Scheduled then WithStatus(pushed, Active, now) else pushed;
      Step(Accepted(pushed, p), s[dto.meetingId := stored])
  }

  /** `leaveMeeting` as one step: the user's first entry becomes `left`; when
      no `joined` entry remains the meeting ends. The result is the document
      after the removal, before it is ended; `None` when nothing matched. */
  function Leave(s: Store, meetingId: string, userId: string, now: Time): Step<Option<Meeting>> {
    if meetingId !in s then Step(None, s)
    else match PatchParticipant(s[meetingId], userId, LeftPatch(now))
      case None => Step(None, s)
      case Some(m) =>
        Step(Some(m), s[meetingId := if JoinedCount(m.participants) == 0 then WithStatus(m, Ended, now) else m])
  }

  /** `endMeeting` as one step. */
  function End(s: Store, meetingId: string, requesterId: string, now: Time): Step<Outcome> {
    if meetingId !in s then Step(Refused(MsgNotFound), s)
    else if s[meetingId].hostId != requesterId then Step(Refused(MsgOnlyHostCanEnd), s)
    else Step(Done, s[meetingId := WithStatus(s[meetingId], Ended, now)])
  }

  /** The patch `admitParticipant` writes. */
  function AdmitPatch(): ParticipantPatch {
    EmptyPatch.(status := Some(Joined))
  }

  /** Store after a positional update that may match nothing. */
  function StoreAfterPatch(s: Store, meetingId: string, userId: string, patch: ParticipantPatch): Store {
    if meetingId !in s then s
    else match PatchParticipant(s[meetingId], userId, patch)
      case None => s
      case Some(m) => s[meetingId := m]
  }

  /** `admitParticipant` as one step; success does not depend on whether the
      user has an entry. */
  function Admit(s: Store, meetingId: string, userId: string, hostId: string): Step<Outcome> {
    if meetingId !in s then Step(Refused(MsgNotFound), s)
    else if s[meetingId].hostId != hostId then Step(Refused(MsgOnlyHostCanAdmit), s)
    else Step(Done, StoreAfterPatch(s, meetingId, userId, AdmitPatch()))
  }

  /** The message `sendChatMessage` stores: the draft with an id and a timestamp. */
  function Stamp(draft: ChatDraft, id: string, now: Time): ChatMessage {
    ChatMessage(id, draft.senderId, draft.senderName, draft.message, now, draft.isPrivate, draft.recipientId)
  }

  /** `sendChatMessage` as one step; the message is returned even when no
      meeting has this id. */
  function SendChat(s: Store, meetingId: string, draft: ChatDraft, id: string, now: Time): Step<ChatMessage> {
    var msg := Stamp(draft, id, now);
    if meetingId in s then Step(msg, s[meetingId := s[meetingId].(chatMessages := s[meetingId].chatMessages + [msg])])
    else Step(msg, s)
  }

  /** The settings `createMeeting` hands to the store: a password is hashed
      only when `requirePassword` is on and a password is given. */
  function HashSettings(settings: Option<SettingsPatch>, hash: string -> string): (r: Option<SettingsPatch>)
    ensures settings.None? ==> r.None?
    ensures settings.Some? ==> r.Some?
    ensures settings.Some? && settings.value.requirePassword == Some(true) && Truthy(settings.value.password)
      ==> r.value == settings.value.(password := Some(hash(settings.value.password.value)))
    ensures settings.Some? && !(settings.value.requirePassword == Some(true) && Truthy(settings.value.password))
      ==> r == settings
  {
    if settings.Some? && settings.value.requirePassword == Some(true) && Truthy(settings.value.password)
    then Some(settings.value.(password := Some(hash(settings.value.password.value))))
    else settings
  }

  // ---------------------------------------------------------------------------
  // Properties of the steps

  predicate Terminal(status: MeetingStatus) {
    status == Ended || status == Cancelled
  }

  /** Each message of a rejected join stands for exactly one failing check,
      taken in order. */
  lemma JoinRejectionOrder(found: Option<Meeting>, dto: JoinMeetingDto, matches: (string, string) -> bool)
    ensures var r := JoinRejection(found, dto, matches);
      && (r == Some(MsgNotFound) <==> found.None?)
      && (r == Some(MsgEnded) <==> found.Some? && found.value.status == Ended)
      && (r == Some(MsgCancelled) <==> found.Some? && found.value.status == Cancelled)
      && (r == Some(MsgPasswordRequired) <==>
            found.Some? && !Terminal(found.value.status)
            && PasswordProtected(found.value.settings) && !Truthy(dto.password))
      && (r == Some(MsgInvalidPassword) <==>
            found.Some? && !Terminal(found.value.status)
            && PasswordProtected(found.value.settings) && Truthy(dto.password)
            && !matches(dto.password.value, found.value.settings.password.value))
      && (r == Some(MsgFull) <==>
            found.Some? && !Terminal(found.value.status)
            && (PasswordProtected(found.value.settings) ==>
                 Truthy(dto.password) && matches(dto.password.value, found.value.settings.password.value))
            && JoinedCount(found.value.participants) >= found.value.settings.maxParticipants)
      && (r == Some(MsgAlreadyInMeeting) <==>
            found.Some? && !Terminal(found.value.status)
            && (PasswordProtected(found.value.settings) ==>
                 Truthy(dto.password) && matches(dto.password.value, found.value.settings.password.value))
            && JoinedCount(found.value.participants) < found.value.settings.maxParticipants
            && AlreadyJoined(found.value.participants, dto.userId))
      && (r.Some? || r.None?)
  {
    assert MsgNotFound != MsgEnded && MsgNotFound != MsgCancelled && MsgNotFound != MsgPasswordRequired;
    assert MsgNotFound != MsgInvalidPassword && MsgNotFound != MsgFull && MsgNotFound != MsgAlreadyInMeeting;
    assert MsgEnded != MsgCancelled && MsgEnded != MsgPasswordRequired && MsgEnded != MsgInvalidPassword;
    assert MsgEnded != MsgFull && MsgEnded != MsgAlreadyInMeeting;
    assert MsgCancelled != MsgPasswordRequired && MsgCancelled != MsgInvalidPassword;
    assert MsgCancelled != MsgFull && MsgCancelled != MsgAlreadyInMeeting;
    assert MsgPasswordRequired != MsgInvalidPassword && MsgPasswordRequired != MsgFull;
    assert MsgPasswordRequired != MsgAlreadyInMeeting;
    assert MsgInvalidPassword != MsgFull && MsgInvalidPassword != MsgAlreadyInMeeting;
    assert MsgFull != MsgAlreadyInMeeting;
  }

  /** A rejected join leaves the store as it was. */
  lemma JoinRejectedUnchanged(s: Store, dto: JoinMeetingDto, matches: (string, string) -> bool, now: Time)
    ensures Join(s, dto, matches, now).result.Rejected? <==>
      JoinRejection(Lookup(s, dto.meetingId), dto, matches).Some?
    ensures Join(s, dto, matches, now).result.Rejected? ==> Join(s, dto, matches, now).store == s
  {
  }

  /** Unless the meeting is password protected, the supplied password and the
      hash check play no part in the decision. */
  lemma PasswordIgnoredUnlessProtected(m: Meeting, dto: JoinMeetingDto, password: Option<string>,
                                      matches: (string, string) -> bool, other: (string, string) -> bool)
    requires !PasswordProtected(m.settings)
    ensures JoinRejection(Some(m), dto, matches) == JoinRejection(Some(m), dto.(password := password), other)
  {
  }

  /** Adding a roster entry that is not `joined` never changes whether the
      meeting counts as full. */
  lemma FullIgnoresNonJoined(m: Meeting, p: Participant, dto: JoinMeetingDto, matches: (string, string) -> bool)
    requires p.status != Joined
    ensures var m' := m.(participants := m.participants + [p]);
      (JoinRejection(Some(m'), dto, matches) == Some(MsgFull)) <==> (JoinRejection(Some(m), dto, matches) == Some(MsgFull))
  {
    JoinedCountAppend(m.participants, p);
    JoinRejectionOrder(Some(m), dto, matches);
    JoinRejectionOrder(Some(m.(participants := m.participants + [p])), dto, matches);
  }

  /** Appending never moves the first entry of a user who already has one. */
  lemma {:induction false} FirstIndexAppend(roster: seq<Participant>, p: Participant, userId: string)
    requires FirstIndex(roster, userId).Some?
    ensures FirstIndex(roster + [p], userId) == FirstIndex(roster, userId)
  {
    if roster[0].userId != userId {
      assert (roster + [p])[1..] == roster[1..] + [p];
      FirstIndexAppend(roster[1..], p, userId);
    }
  }

  /** What a successful join does: exactly one entry is appended, with role
      host iff the joiner is the host, status waiting iff the waiting room is
      on and the joiner is not the host, and every media flag off. */
  lemma JoinAccepted(s: Store, dto: JoinMeetingDto, matches: (string, string) -> bool, now: Time)
    requires Join(s, dto, matches, now).result.Accepted?
    ensures dto.meetingId in s
    ensures var st := Join(s, dto, matches, now);
      var m := s[dto.meetingId];
      var p := st.result.participant;
      && st.store == s[dto.meetingId := st.store[dto.meetingId]]
      && st.store[dto.meetingId].participants == m.participants + [p]
      && st.result.meeting == m.(participants := m.participants + [p])
      && p.userId == dto.userId && p.name == dto.name && p.email == dto.email
      && (p.role == Host <==> dto.userId == m.hostId)
      && (p.status == Waiting <==> m.settings.waitingRoom && dto.userId != m.hostId)
      && (p.status == Joined <==> !(m.settings.waitingRoom && dto.userId != m.hostId))
      && !p.isMuted && !p.isVideoOff && !p.isHandRaised
  {
  }

  /** A join makes the meeting active only when the host joins a scheduled
      meeting; any other accepted join keeps the status read at entry. */
  lemma JoinStatus(s: Store, dto: JoinMeetingDto, matches: (string, string) -> bool, now: Time)
    requires Join(s, dto, matches, now).result.Accepted?
    ensures var m := s[dto.meetingId];
      var after := Join(s, dto, matches, now).store[dto.meetingId];
      && (after.status == Active <==> m.status == Active || (dto.userId == m.hostId && m.status == Scheduled))
      && (m.status == Active ==> after.status == Active && after.startedAt == m.startedAt)
      && (dto.userId != m.hostId ==> after.status == m.status)
  {
  }

  /** A user whose first entry is `left` can join again: a second entry is
      appended and the positional updates still reach the first one. */
  lemma RejoinKeepsOlderEntry(s: Store, dto: JoinMeetingDto, matches: (string, string) -> bool, now: Time)
    requires Join(s, dto, matches, now).result.Accepted?
    requires FirstIndex(s[dto.meetingId].participants, dto.userId).Some?
    ensures var roster := Join(s, dto, matches, now).store[dto.meetingId].participants;
      && FirstIndex(roster, dto.userId) == FirstIndex(s[dto.meetingId].participants, dto.userId)
      && roster[|roster| - 1].userId == dto.userId
      && FirstIndex(roster, dto.userId).value < |roster| - 1
  {
    var m := s[dto.meetingId];
    var p := Join(s, dto, matches, now).result.participant;
    FirstIndexAppend(m.participants, p, dto.userId);
  }

  /** A user whose first entry is already `joined` is turned away before any
      role or status is chosen, if no earlier check fails. */
  lemma SecondJoinRejected(s: Store, dto: JoinMeetingDto, matches: (string, string) -> bool, now: Time)
    requires dto.meetingId in s
    requires AlreadyJoined(s[dto.meetingId].participants, dto.userId)
    ensures Join(s, dto, matches, now).result.Rejected?
    ensures Join(s, dto, matches, now).store == s
  {
  }

  /** The socket join path forwards no password: a protected, live meeting
      always answers 'Password required' to it. */
  lemma NoPasswordMeansPasswordRequired(m: Meeting, dto: JoinMeetingDto, matches: (string, string) -> bool)
    requires dto.password.None?
    requires !Terminal(m.status) && PasswordProtected(m.settings)
    ensures JoinRejection(Some(m), dto, matches) == Some(MsgPasswordRequired)
  {
  }

  /** Leaving: the user's first entry becomes `left`, nothing else in the
      roster changes, and the meeting ends iff no `joined` entry remains. */
  lemma LeaveEffect(s: Store, meetingId: string, userId: string, now: Time)
    requires meetingId in s
    requires FirstIndex(s[meetingId].participants, userId).Some?
    ensures var st := Leave(s, meetingId, userId, now);
      var old_roster := s[meetingId].participants;
      var i := FirstIndex(old_roster, userId).value;
      var after := st.store[meetingId];
      && st.result.Some?
      && st.store == s[meetingId := after]
      && |after.participants| == |old_roster|
      && after.participants[i].status == Left && after.participants[i].leftAt == Some(now)
      && (forall j :: 0 <= j < |old_roster| && j != i ==> after.participants[j] == old_roster[j])
      && (after.status == Ended <==> JoinedCount(after.participants) == 0 || s[meetingId].status == Ended)
      && JoinedCount(after.participants) == JoinedCount(old_roster) - (if old_roster[i].status == Joined then 1 else 0)
  {
    var old_roster := s[meetingId].participants;
    var i := FirstIndex(old_roster, userId).value;
    JoinedCountReplace(old_roster, i, ApplyPatch(old_roster[i], LeftPatch(now)));
  }

  /** Leaving without a roster entry (or from an unknown meeting) changes
      nothing and yields no meeting. */
  lemma LeaveWithoutEntry(s: Store, meetingId: string, userId: string, now: Time)
    requires meetingId !in s || forall j :: 0 <= j < |s[meetingId].participants| ==> s[meetingId].participants[j].userId != userId
    ensures Leave(s, meetingId, userId, now) == Step(None, s)
  {
  }

  /** Leaving does not look at the meeting's status: the last participant
      leaving a cancelled meeting turns it into an ended one. */
  lemma LeaveEndsCancelledMeeting(s: Store, meetingId: string, userId: string, now: Time)
    requires meetingId in s && s[meetingId].status == Cancelled
    requires FirstIndex(s[meetingId].participants, userId).Some?
    requires JoinedCount(s[meetingId].participants) <= 1
    requires s[meetingId].participants[FirstIndex(s[meetingId].participants, userId).value].status == Joined
    ensures Leave(s, meetingId, userId, now).store[meetingId].status == Ended
  {
    LeaveEffect(s, meetingId, userId, now);
  }

  /** A waiting participant who leaves a meeting in which nobody has joined
      ends it, although no `joined` count went from positive to zero. */
  lemma WaitingLeaveEndsMeeting(s: Store, meetingId: string, userId: string, now: Time)
    requires meetingId in s && JoinedCount(s[meetingId].participants) == 0
    requires FirstIndex(s[meetingId].participants, userId).Some?
    ensures Leave(s, meetingId, userId, now).store[meetingId].status == Ended
  {
    LeaveEffect(s, meetingId, userId, now);
  }

  /** Ending: not found or a non-host change nothing; the host ends the
      meeting whatever its roster. */
  lemma EndEffect(s: Store, meetingId: string, requesterId: string, now: Time)
    ensures var st := End(s, meetingId, requesterId, now);
      && (st.result.Refused? <==> meetingId !in s || s[meetingId].hostId != requesterId)
      && (st.result.Refused? ==> st.store == s)
      && (st.result == Refused(MsgNotFound) <==> meetingId !in s)
      && (st.result.Done? ==> st.store == s[meetingId := st.store[meetingId]]
                              && st.store[meetingId].status == Ended
                              && st.store[meetingId].participants == s[meetingId].participants)
  {
    assert MsgNotFound != MsgOnlyHostCanEnd;
  }

  /** Admitting: not found or a non-host change nothing; otherwise the first
      entry of the user becomes `joined`, with no capacity check and no check
      that it was waiting. */
  lemma AdmitEffect(s: Store, meetingId: string, userId: string, hostId: string)
    ensures var st := Admit(s, meetingId, userId, hostId);
      && (st.result.Refused? <==> meetingId !in s || s[meetingId].hostId != hostId)
      && (st.result.Refused? ==> st.store == s)
      && (st.result == Refused(MsgNotFound) <==> meetingId !in s)
      && (st.result.Done? && FirstIndex(s[meetingId].participants, userId).None? ==> st.store == s)
  {
    assert MsgNotFound != MsgOnlyHostCanAdmit;
  }

  /** Admission can take the `joined` count past `maxParticipants`. */
  lemma AdmitIgnoresCapacity(s: Store, meetingId: string, userId: string)
    requires meetingId in s
    requires FirstIndex(s[meetingId].participants, userId).Some?
    ensures var roster := s[meetingId].participants;
      var i := FirstIndex(roster, userId).value;
      var after := Admit(s, meetingId, userId, s[meetingId].hostId).store[meetingId];
      && after.participants[i].status == Joined
      && JoinedCount(after.participants) == JoinedCount(roster) + (if roster[i].status == Joined then 0 else 1)
  {
    var roster := s[meetingId].participants;
    var i := FirstIndex(roster, userId).value;
    JoinedCountReplace(roster, i, ApplyPatch(roster[i], AdmitPatch()));
  }

  /** The service: the repository it writes through and the password hashing
      it is given. */
  class MeetingService {
    const repo: MeetingRepository
    /** `bcrypt.hash`. */
    const hash: string -> string
    /** `bcrypt.compare(plain, hashed)`. */
    const passwordMatches: (string, string) -> bool

    constructor (repo: MeetingRepository, hash: string -> string, passwordMatches: (string, string) -> bool)
      ensures this.repo == repo && this.hash == hash && this.passwordMatches == passwordMatches
    {
      this.repo := repo;
      this.hash := hash;
      this.passwordMatches := passwordMatches;
    }

    /** `createMeeting`: hashes a required password, then lets the store create
        the document (`None` when a required path is empty or the generated id
        is taken). */
    method CreateMeeting(dto: CreateMeetingDto, draws: seq<nat>) returns (r: Option<Meeting>)
      requires repo.Valid() && MeetingModel.ValidDraws(draws)
      modifies repo
      ensures repo.Valid()
      ensures var id := MeetingModel.GenerateMeetingId(draws);
        var doc := NewDocument(dto.(settings := HashSettings(dto.settings, hash))).(meetingId := id);
        if dto.title == "" || dto.hostId == "" || id in old(repo.meetings) then r.None? && repo.meetings == old(repo.meetings)
        else r == Some(doc) && repo.meetings == old(repo.meetings)[id := doc]
    {
      var data := dto;
      if data.settings.Some? && data.settings.value.requirePassword == Some(true) && Truthy(data.settings.value.password) {
        data := data.(settings := Some(data.settings.value.(password := Some(hash(data.settings.value.password.value)))));
      }
      r := repo.Create(data, draws);
    }

    /** `getMeeting`. */
    method GetMeeting(meetingId: string) returns (r: Option<Meeting>)
      requires repo.Valid()
      ensures r == Lookup(repo.meetings, meetingId)
    {
      r := repo.FindById(meetingId);
    }

    /** `joinMeeting`. */
    method JoinMeeting(dto: JoinMeetingDto, now: Time) returns (r: JoinResult)
      requires repo.Valid()
      modifies repo
      ensures repo.Valid()
      ensures Join(old(repo.meetings), dto, passwordMatches, now) == Step(r, repo.meetings)
    {
      var found := repo.FindById(dto.meetingId);
      if found.None? {
        return Rejected(MsgNotFound);
      }
      var meeting := found.value;
      if meeting.status == Ended {
        return Rejected(MsgEnded);
      }
      if meeting.status == Cancelled {
        return Rejected(MsgCancelled);
      }
      if meeting.settings.requirePassword && Truthy(meeting.settings.password) {
        if !Truthy(dto.password) {
          return Rejected(MsgPasswordRequired);
        }
        var isPasswordValid := passwordMatches(dto.password.value, meeting.settings.password.value);
        if !isPasswordValid {
          return Rejected(MsgInvalidPassword);
        }
      }
      if JoinedCount(meeting.participants) >= meeting.settings.maxParticipants {
        return Rejected(MsgFull);
      }
      var existing := FirstEntry(meeting.participants, dto.userId);
      if existing.Some? && existing.value.status == Joined {
        return Rejected(MsgAlreadyInMeeting);
      }
      var role := if meeting.hostId == dto.userId then Host else Attendee;
      var participant := Participant(
        dto.userId, dto.name, dto.email, role,
        if meeting.settings.waitingRoom && role != Host then Waiting else Joined,
        now, None, false, false, false, None, None);
      var updated := repo.AddParticipant(dto.meetingId, participant);
      if role == Host && meeting.status == Scheduled {
        var _ := repo.UpdateStatus(dto.meetingId, Active, now);
      }
      r := Accepted(updated.value, participant);
    }

    /** `leaveMeeting`. */
    method LeaveMeeting(meetingId: string, userId: string, now: Time) returns (r: Option<Meeting>)
      requires repo.Valid()
      modifies repo
      ensures repo.Valid()
      ensures Leave(old(repo.meetings), meetingId, userId, now) == Step(r, repo.meetings)
    {
      r := repo.RemoveParticipant(meetingId, userId, now);
      if r.Some? {
        if JoinedCount(r.value.participants) == 0 {
          var _ := repo.UpdateStatus(meetingId, Ended, now);
        }
      }
    }

    /** `updateParticipant`. */
    method UpdateParticipant(meetingId: string, userId: string, patch: ParticipantPatch)
      returns (r: Option<Meeting>)
      requires repo.Valid()
      modifies repo
      ensures repo.Valid()
      ensures repo.meetings == StoreAfterPatch(old(repo.meetings), meetingId, userId, patch)
      ensures r.Some? <==> meetingId in old(repo.meetings)
                           && PatchParticipant(old(repo.meetings)[meetingId], userId, patch).Some?
      ensures r.Some? ==> r.value == repo.meetings[meetingId]
    {
      r := repo.UpdateParticipant(meetingId, userId, patch);
    }

    /** `sendChatMessage`, with the generated id and the time passed in. */
    method SendChatMessage(meetingId: string, draft: ChatDraft, id: string, now: Time) returns (msg: ChatMessage)
      requires repo.Valid()
      modifies repo
      ensures repo.Valid()
      ensures SendChat(old(repo.meetings), meetingId, draft, id, now) == Step(msg, repo.meetings)
    {
      msg := ChatMessage(id, draft.senderId, draft.senderName, draft.message, now, draft.isPrivate, draft.recipientId);
      var _ := repo.AddChatMessage(meetingId, msg);
    }

    /** `endMeeting`. */
    method EndMeeting(meetingId: string, hostId: string, now: Time) returns (r: Outcome)
      requires repo.Valid()
      modifies repo
      ensures repo.Valid()
      ensures End(old(repo.meetings), meetingId, hostId, now) == Step(r, repo.meetings)
    {
      var found := repo.FindById(meetingId);
      if found.None? {
        return Refused(MsgNotFound);
      }
      if found.value.hostId != hostId {
        return Refused(MsgOnlyHostCanEnd);
      }
      var _ := repo.UpdateStatus(meetingId, Ended, now);
      r := Done;
    }

    /** `toggleRecording`. */
    method ToggleRecording(meetingId: string, isRecording: bool) returns (r: Option<Meeting>)
      requires repo.Valid()
      modifies repo
      ensures repo.Valid()
      ensures meetingId !in old(repo.meetings) ==> r.None? && repo.meetings == old(repo.meetings)
      ensures meetingId in old(repo.meetings) ==>
        r == Some(old(repo.meetings)[meetingId].(isRecording := isRecording))
        && repo.meetings == old(repo.meetings)[meetingId := r.value]
    {
      r := repo.ToggleRecording(meetingId, isRecording);
    }

    /** `admitParticipant`. */
    method AdmitParticipant(meetingId: string, userId: string, hostId: string) returns (r: Outcome)
      requires repo.Valid()
      modifies repo
      ensures repo.Valid()
      ensures Admit(old(repo.meetings), meetingId, userId, hostId) == Step(r, repo.meetings)
    {
      var found := repo.FindById(meetingId);
      if found.None? {
        return Refused(MsgNotFound);
      }
      if found.value.hostId != hostId {
        return Refused(MsgOnlyHostCanAdmit);
      }
      var _ := repo.UpdateParticipant(meetingId, userId, AdmitPatch());
      r := Done;
    }
  }
}
