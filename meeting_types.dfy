/** The meeting document and the shapes exchanged with the meeting store:
    enums and records of the meeting interfaces. Dates are opaque clock
    values (`Time`), supplied by the caller of every operation that stamps one. */
module MeetingTypes {

  datatype Option<+T> = None | Some(value: T) {
    function GetOr(default: T): T {
      match this
      case Some(v) => v
      case None => default
    }
  }

  /** A clock reading; milliseconds since the epoch. */
  type Time = nat

  datatype MeetingStatus = Scheduled | Active | Ended | Cancelled

  /** `Attendee` is the enum's PARTICIPANT value. */
  datatype ParticipantRole = Host | CoHost | Attendee

  datatype ParticipantStatus = Joined | Left | Waiting | Removed

  /** One roster entry of a meeting. */
  datatype Participant = Participant(
    userId: string,
    name: string,
    email: Option<string>,
    role: ParticipantRole,
    status: ParticipantStatus,
    joinedAt: Time,
    leftAt: Option<Time>,
    isMuted: bool,
    isVideoOff: bool,
    isHandRaised: bool,
    socketId: Option<string>,
    peerId: Option<string>)

  datatype MeetingSettings = MeetingSettings(
    allowParticipantVideo: bool,
    allowParticipantAudio: bool,
    allowChat: bool,
    allowScreenShare: bool,
    waitingRoom: bool,
    recordMeeting: bool,
    maxParticipants: int,
    requirePassword: bool,
    password: Option<string>)

  datatype ChatMessage = ChatMessage(
    id: string,
    senderId: string,
    senderName: string,
    message: string,
    timestamp: Time,
    isPrivate: bool,
    recipientId: Option<string>)

  /** A stored meeting document. The store's own createdAt/updatedAt stamps are not kept. */
  datatype Meeting = Meeting(
    meetingId: string,
    title: string,
    description: Option<string>,
    hostId: string,
    scheduledAt: Option<Time>,
    startedAt: Option<Time>,
    endedAt: Option<Time>,
    duration: Option<int>,
    status: MeetingStatus,
    participants: seq<Participant>,
    settings: MeetingSettings,
    recordingUrl: Option<string>,
    isRecording: bool,
    chatMessages: seq<ChatMessage>)

  /** A partial settings object: `None` is a key that is not present. */
  datatype SettingsPatch = SettingsPatch(
    allowParticipantVideo: Option<bool>,
    allowParticipantAudio: Option<bool>,
    allowChat: Option<bool>,
    allowScreenShare: Option<bool>,
    waitingRoom: Option<bool>,
    recordMeeting: Option<bool>,
    maxParticipants: Option<int>,
    requirePassword: Option<bool>,
    password: Option<string>)

  /** A partial participant: `None` is a key that is not present. */
  datatype ParticipantPatch = ParticipantPatch(
    userId: Option<string>,
    name: Option<string>,
    email: Option<string>,
    role: Option<ParticipantRole>,
    status: Option<ParticipantStatus>,
    joinedAt: Option<Time>,
    leftAt: Option<Time>,
    isMuted: Option<bool>,
    isVideoOff: Option<bool>,
    isHandRaised: Option<bool>,
    socketId: Option<string>,
    peerId: Option<string>)

  const EmptyPatch := ParticipantPatch(None, None, None, None, None, None, None, None, None, None, None, None)

  datatype CreateMeetingDto = CreateMeetingDto(
    title: string,
    description: Option<string>,
    hostId: string,
    scheduledAt: Option<Time>,
    duration: Option<int>,
    settings: Option<SettingsPatch>)

  datatype JoinMeetingDto = JoinMeetingDto(
    meetingId: string,
    userId: string,
    name: string,
    email: Option<string>,
    password: Option<string>)

  /** A chat message before the service gives it an id and a timestamp. */
  datatype ChatDraft = ChatDraft(
    senderId: string,
    senderName: string,
    message: string,
    isPrivate: bool,
    recipientId: Option<string>)

  /** JavaScript truthiness of an optional string: present and non-empty. */
  predicate Truthy(s: Option<string>) {
    s.Some? && s.value != ""
  }
}
