/** The WebRTC signaling service: a registry `meetingId -> userId -> socket`,
    each socket's bound identity (`socket.data`), socket.io room membership,
    and the events the handlers emit. Sockets are opaque handles (their
    socket ids); delivery is an outbox of emissions, each an event addressed
    to a set of sockets. Each handler is one atomic step; `JoinStep`,
    `RelayStep`, `ChatStep`, `SignalStep` and `LeaveStep` specify that step on
    a `Hub` value and `SignalingService` performs it on its fields. */
module Signaling {
  import opened MeetingTypes
  import opened MeetingStore
  import opened Lifecycle

  /** A socket, known by its socket id. */
  type Handle = string

  /** `socket.data` once a join succeeded. A socket never bound has no entry
      (its data is the empty object). */
  datatype SocketData = SocketData(userId: string, meetingId: string, name: string)

  /** An entry of `existing-participants`. */
  datatype PeerInfo = PeerInfo(userId: string, socketId: Handle, name: string)

  datatype RelayKind = OfferRelay | AnswerRelay | IceCandidateRelay

  /** The participant-state events that are announced to the rest of the room. */
  datatype Signal =
    | ToggleMute(isMuted: bool)
    | ToggleVideo(isVideoOff: bool)
    | RaiseHand(isHandRaised: bool)
    | StartScreenShare
    | StopScreenShare

  datatype Event =
    | JoinError(message: string)
    | JoinSuccess(meeting: Meeting, participant: Participant)
    | ExistingParticipants(peers: set<PeerInfo>)
    | UserJoined(userId: string, socketId: Handle, name: string, participant: Participant)
    | Relay(kind: RelayKind, from: string, body: string)
    | Chat(chat: ChatMessage)
    | ParticipantMuted(userId: string, isMuted: bool)
    | ParticipantVideoToggled(userId: string, isVideoOff: bool)
    | HandRaised(userId: string, name: string, isHandRaised: bool)
    | ScreenShareStarted(userId: string)
    | ScreenShareStopped(userId: string)
    | UserLeft(userId: string)

  /** One `emit`: the event and the sockets it reaches. */
  datatype Emission = Emission(to: set<Handle>, event: Event)

  type Registry = map<string, map<string, Handle>>

  /** The state the handlers change. */
  datatype Hub = Hub(registry: Registry, socketData: map<Handle, SocketData>, rooms: map<string, set<Handle>>)

  /** A step's new state and what it emitted, in order. */
  datatype Out = Out(hub: Hub, emitted: seq<Emission>)

  /** The join request a client sends; it carries no password. */
  datatype JoinRequest = JoinRequest(meetingId: string, userId: string, name: string, email: Option<string>)

  /** What the socket path hands to `joinMeeting`. */
  function SocketJoinDto(req: JoinRequest): (dto: JoinMeetingDto)
    ensures dto.password.None?
    ensures dto.meetingId == req.meetingId && dto.userId == req.userId
    ensures dto.name == req.name && dto.email == req.email
  {
    JoinMeetingDto(req.meetingId, req.userId, req.name, req.email, None)
  }

  /** The socket has a truthy `meetingId` in its data. */
  predicate Bound(hub: Hub, h: Handle) {
    h in hub.socketData && hub.socketData[h].meetingId != ""
  }

  function Members(rooms: map<string, set<Handle>>, room: string): set<Handle> {
    if room in rooms then rooms[room] else {}
  }

  /** `socket.leave(room)`. */
  function LeaveRoom(rooms: map<string, set<Handle>>, room: string, h: Handle): (r: map<string, set<Handle>>)
    ensures h !in Members(r, room)
    ensures Members(r, room) == Members(rooms, room) - {h}
    ensures forall other :: other != room ==> Members(r, other) == Members(rooms, other)
  {
    if room in rooms then rooms[room := rooms[room] - {h}] else rooms
  }

  /** The room membership after a disconnect: the socket is in no room. */
  function LeaveAllRooms(rooms: map<string, set<Handle>>, h: Handle): (r: map<string, set<Handle>>)
    ensures forall room :: h !in Members(r, room)
    ensures forall room :: Members(r, room) == Members(rooms, room) - {h}
  {
    map room | room in rooms :: rooms[room] - {h}
  }

  /** The registered socket of `userId` in a meeting, if any. */
  function TargetOf(reg: Registry, meetingId: string, userId: string): (r: Option<Handle>)
    ensures r.Some? <==> meetingId in reg && userId in reg[meetingId]
    ensures r.Some? ==> r.value == reg[meetingId][userId]
  {
    if meetingId in reg && userId in reg[meetingId] then Some(reg[meetingId][userId]) else None
  }

  /** `meetings.get(id) ?? new Map()` then `set(userId, socket)`. */
  function Register(reg: Registry, meetingId: string, userId: string, h: Handle): (r: Registry)
    ensures TargetOf(r, meetingId, userId) == Some(h)
    ensures forall m, u :: (m != meetingId || u != userId) ==> TargetOf(r, m, u) == TargetOf(reg, m, u)
    ensures r.Keys == reg.Keys + {meetingId}
  {
    reg[meetingId := (if meetingId in reg then reg[meetingId] else map[])[userId := h]]
  }

  /** `meetingRoom.delete(userId)`, dropping the meeting once its map is empty. */
  function Unregister(reg: Registry, meetingId: string, userId: string): (r: Registry)
    ensures TargetOf(r, meetingId, userId).None?
    ensures forall m, u :: (m != meetingId || u != userId) ==> TargetOf(r, m, u) == TargetOf(reg, m, u)
    ensures r.Keys <= reg.Keys
  {
    if meetingId !in reg then reg
    else
      var room := reg[meetingId] - {userId};
      assert forall u :: u in reg[meetingId] && u != userId ==> u in room;
      if room.Keys == {} then reg - {meetingId} else reg[meetingId := room]
  }

  /** The registry has no empty meeting map and every registered socket has
      bound data. */
  predicate HubValid(hub: Hub) {
    && (forall m :: m in hub.registry ==> hub.registry[m].Keys != {})
    && (forall m, u :: m in hub.registry && u in hub.registry[m] ==> hub.registry[m][u] in hub.socketData)
  }

  function NameOf(data: map<Handle, SocketData>, s: Handle): string {
    if s in data then data[s].name else ""
  }

  /** `existing-participants`: every other registered user of the meeting's
      map, with its socket and the name in that socket's data. */
  function Peers(room: map<string, Handle>, data: map<Handle, SocketData>, userId: string): (r: set<PeerInfo>)
    ensures forall p :: p in r <==>
      && p.userId in room && p.userId != userId
      && p.socketId == room[p.userId] && p.name == NameOf(data, p.socketId)
  {
    set u | u in room && u != userId :: PeerInfo(u, room[u], NameOf(data, room[u]))
  }

  /** The `join-meeting` handler, given the service's answer. */
  function JoinStep(hub: Hub, h: Handle, req: JoinRequest, result: JoinResult): Out {
    match result
    case Rejected(msg) => Out(hub, [Emission({h}, JoinError(msg))])
    case Accepted(meeting, participant) =>
      var reg := Register(hub.registry, req.meetingId, req.userId, h);
      var data := hub.socketData[h := SocketData(req.userId, req.meetingId, req.name)];
      var rooms := hub.rooms[req.meetingId := Members(hub.rooms, req.meetingId) + {h}];
      Out(Hub(reg, data, rooms), [
        Emission({h}, JoinSuccess(meeting, participant)),
        Emission({h}, ExistingParticipants(Peers(reg[req.meetingId], data, req.userId))),
        Emission(Members(rooms, req.meetingId) - {h}, UserJoined(req.userId, h, req.name, participant))])
  }

  /** The `offer`, `answer` and `ice-candidate` handlers: forward to the
      registered socket of `to` in the sender's meeting. */
  function RelayStep(hub: Hub, h: Handle, kind: RelayKind, to: string, body: string): seq<Emission> {
    if !Bound(hub, h) then []
    else
      var d := hub.socketData[h];
      match TargetOf(hub.registry, d.meetingId, to)
      case None => []
      case Some(target) => [Emission({target}, Relay(kind, d.userId, body))]
  }

  /** The chat draft a bound socket's message becomes. */
  function ChatDraftOf(d: SocketData, message: string, isPrivate: Option<bool>, recipientId: Option<string>): ChatDraft {
    ChatDraft(d.userId, d.name, message, isPrivate == Some(true), recipientId)
  }

  /** Routing of the stored chat message. */
  function ChatStep(hub: Hub, h: Handle, isPrivate: Option<bool>, recipientId: Option<string>, msg: ChatMessage)
    : seq<Emission>
  {
    if !Bound(hub, h) then []
    else
      var d := hub.socketData[h];
      if isPrivate == Some(true) && Truthy(recipientId) then
        match TargetOf(hub.registry, d.meetingId, recipientId.value)
        case Some(target) => [Emission({target}, Chat(msg)), Emission({h}, Chat(msg))]
        case None => [Emission({h}, Chat(msg))]
      else [Emission(Members(hub.rooms, d.meetingId), Chat(msg))]
  }

  /** The participant keys a signal writes, if it writes any. */
  function SignalPatch(sig: Signal): Option<ParticipantPatch> {
    match sig
    case ToggleMute(b) => Some(EmptyPatch.(isMuted := Some(b)))
    case ToggleVideo(b) => Some(EmptyPatch.(isVideoOff := Some(b)))
    case RaiseHand(b) => Some(EmptyPatch.(isHandRaised := Some(b)))
    case StartScreenShare => None
    case StopScreenShare => None
  }

  function Announcement(d: SocketData, sig: Signal): Event {
    match sig
    case ToggleMute(b) => ParticipantMuted(d.userId, b)
    case ToggleVideo(b) => ParticipantVideoToggled(d.userId, b)
    case RaiseHand(b) => HandRaised(d.userId, d.name, b)
    case StartScreenShare => ScreenShareStarted(d.userId)
    case StopScreenShare => ScreenShareStopped(d.userId)
  }

  /** The mute, video, hand-raise and screen-share handlers' emission. */
  function SignalStep(hub: Hub, h: Handle, sig: Signal): seq<Emission> {
    if !Bound(hub, h) then []
    else
      var d := hub.socketData[h];
      [Emission(Members(hub.rooms, d.meetingId) - {h}, Announcement(d, sig))]
  }

  /** The store after a signal from socket `h`. */
  function SignalStore(s: Store, hub: Hub, h: Handle, sig: Signal): Store {
    if !Bound(hub, h) || SignalPatch(sig).None? then s
    else StoreAfterPatch(s, hub.socketData[h].meetingId, hub.socketData[h].userId, SignalPatch(sig).value)
  }

  /** `handleUserLeaving`. The socket's data is left as it is. */
  function LeaveStep(hub: Hub, h: Handle): Out {
    if !Bound(hub, h) then Out(hub, [])
    else
      var d := hub.socketData[h];
      var rooms := LeaveRoom(hub.rooms, d.meetingId, h);
      Out(Hub(Unregister(hub.registry, d.meetingId, d.userId), hub.socketData, rooms),
          [Emission(Members(rooms, d.meetingId) - {h}, UserLeft(d.userId))])
  }

  /** The store after `handleUserLeaving`. */
  function LeaveStore(s: Store, hub: Hub, h: Handle, now: Time): Store {
    if !Bound(hub, h) then s
    else Leave(s, hub.socketData[h].meetingId, hub.socketData[h].userId, now).store
  }

  /** A disconnect: socket.io takes the socket out of every room, then the
      leaving routine runs. */
  function DisconnectStep(hub: Hub, h: Handle): Out {
    LeaveStep(hub.(rooms := LeaveAllRooms(hub.rooms, h)), h)
  }

  // ---------------------------------------------------------------------------
  // Properties of the steps

  /** A failed join answers only the requester, with `join-error`, and changes
      neither the registry, nor any socket's data, nor any room. */
  lemma JoinRejectedSignal(hub: Hub, h: Handle, req: JoinRequest, msg: string)
    ensures JoinStep(hub, h, req, Rejected(msg)) == Out(hub, [Emission({h}, JoinError(msg))])
  {
  }

  /** A successful join (waiting or joined) binds the user to this socket,
      replacing any earlier socket, and binds the socket to the user; no other
      registration changes. */
  lemma JoinAcceptedBinds(hub: Hub, h: Handle, req: JoinRequest, m: Meeting, p: Participant)
    ensures var hub' := JoinStep(hub, h, req, Accepted(m, p)).hub;
      && TargetOf(hub'.registry, req.meetingId, req.userId) == Some(h)
      && (forall mid, u :: (mid != req.meetingId || u != req.userId) ==>
            TargetOf(hub'.registry, mid, u) == TargetOf(hub.registry, mid, u))
      && hub'.socketData == hub.socketData[h := SocketData(req.userId, req.meetingId, req.name)]
      && h in Members(hub'.rooms, req.meetingId)
  {
  }

  /** The joiner learns every other registered user of the meeting and never
      itself, and the others hear of it while it does not. */
  lemma JoinAnnouncements(hub: Hub, h: Handle, req: JoinRequest, m: Meeting, p: Participant)
    ensures var out := JoinStep(hub, h, req, Accepted(m, p));
      && |out.emitted| == 3
      && out.emitted[0] == Emission({h}, JoinSuccess(m, p))
      && out.emitted[1].to == {h} && out.emitted[1].event.ExistingParticipants?
      && (forall q :: q in out.emitted[1].event.peers ==> q.userId != req.userId)
      && (forall u :: u in out.hub.registry[req.meetingId] && u != req.userId ==>
            exists q :: q in out.emitted[1].event.peers && q.userId == u)
      && (forall u :: u != req.userId && TargetOf(hub.registry, req.meetingId, u).Some? ==>
            exists q :: q in out.emitted[1].event.peers && q.userId == u
                        && q.socketId == TargetOf(hub.registry, req.meetingId, u).value)
      && out.emitted[2].to == Members(hub.rooms, req.meetingId) - {h}
      && h !in out.emitted[2].to
  {
    var out := JoinStep(hub, h, req, Accepted(m, p));
    var reg := out.hub.registry;
    var peers := out.emitted[1].event.peers;
    forall u | u in reg[req.meetingId] && u != req.userId
      ensures exists q :: q in peers && q.userId == u
    {
      var q := PeerInfo(u, reg[req.meetingId][u], NameOf(out.hub.socketData, reg[req.meetingId][u]));
      assert q in peers;
    }
    forall u | u != req.userId && TargetOf(hub.registry, req.meetingId, u).Some?
      ensures exists q :: q in peers && q.userId == u && q.socketId == TargetOf(hub.registry, req.meetingId, u).value
    {
      assert TargetOf(reg, req.meetingId, u) == TargetOf(hub.registry, req.meetingId, u);
      var q := PeerInfo(u, reg[req.meetingId][u], NameOf(out.hub.socketData, reg[req.meetingId][u]));
      assert q in peers;
    }
  }

  /** The socket path cannot enter a live password-protected meeting: with no
      password forwarded the answer is always 'Password required'. */
  lemma SocketJoinOfProtectedMeeting(s: Store, req: JoinRequest, matches: (string, string) -> bool, now: Time)
    requires req.meetingId in s
    requires !Terminal(s[req.meetingId].status) && PasswordProtected(s[req.meetingId].settings)
    ensures Join(s, SocketJoinDto(req), matches, now) == Step(Rejected(MsgPasswordRequired), s)
  {
    NoPasswordMeansPasswordRequired(s[req.meetingId], SocketJoinDto(req), matches);
  }

  /** Offers, answers and candidates: nothing from an unbound socket or to an
      unregistered user; otherwise one emission, to the target's socket only,
      stamped with the sender's user id. */
  lemma RelayRouting(hub: Hub, h: Handle, kind: RelayKind, to: string, body: string)
    ensures var e := RelayStep(hub, h, kind, to, body);
      && (|e| == 0 <==> !Bound(hub, h) || TargetOf(hub.registry, hub.socketData[h].meetingId, to).None?)
      && (|e| != 0 ==> e == [Emission({hub.registry[hub.socketData[h].meetingId][to]},
                                      Relay(kind, hub.socketData[h].userId, body))])
  {
  }

  /** Chat routing: a private message with a recipient reaches the
      recipient's registered socket (if any) and is echoed to the sender; any
      other message reaches the whole room, sender included. */
  lemma ChatRouting(hub: Hub, h: Handle, isPrivate: Option<bool>, recipientId: Option<string>, msg: ChatMessage)
    requires Bound(hub, h)
    ensures var d := hub.socketData[h];
      var e := ChatStep(hub, h, isPrivate, recipientId, msg);
      && (forall k :: 0 <= k < |e| ==> e[k].event == Chat(msg))
      && (isPrivate == Some(true) && Truthy(recipientId) ==>
            && e[|e| - 1].to == {h}
            && (|e| == 2 <==> TargetOf(hub.registry, d.meetingId, recipientId.value).Some?)
            && (|e| == 2 ==> e[0].to == {TargetOf(hub.registry, d.meetingId, recipientId.value).value})
            && |e| in {1, 2})
      && (!(isPrivate == Some(true) && Truthy(recipientId)) ==>
            e == [Emission(Members(hub.rooms, d.meetingId), Chat(msg))])
  {
  }

  /** Mute, video, hand-raise and screen-share signals reach the room without
      the sender, announcing the sender's user id. */
  lemma SignalsExcludeSender(hub: Hub, h: Handle, sig: Signal)
    ensures var e := SignalStep(hub, h, sig);
      && (!Bound(hub, h) ==> e == [])
      && (Bound(hub, h) ==>
            && |e| == 1
            && e[0].to == Members(hub.rooms, hub.socketData[h].meetingId) - {h}
            && h !in e[0].to
            && e[0].event == Announcement(hub.socketData[h], sig))
  {
  }

  /** Leaving from an unbound socket changes nothing anywhere. */
  lemma LeaveUnbound(hub: Hub, s: Store, h: Handle, now: Time)
    requires !Bound(hub, h)
    ensures LeaveStep(hub, h) == Out(hub, [])
    ensures DisconnectStep(hub, h).emitted == []
    ensures LeaveStore(s, hub, h, now) == s
  {
  }

  /** Leaving from a bound socket removes the user's registration in that
      meeting whichever socket it held, keeps every other registration, and
      tells the rest of the room. */
  lemma LeaveBound(hub: Hub, h: Handle)
    requires Bound(hub, h)
    ensures var d := hub.socketData[h];
      var out := LeaveStep(hub, h);
      && TargetOf(out.hub.registry, d.meetingId, d.userId).None?
      && (forall m, u :: (m != d.meetingId || u != d.userId) ==>
            TargetOf(out.hub.registry, m, u) == TargetOf(hub.registry, m, u))
      && out.hub.socketData == hub.socketData
      && out.emitted == [Emission(Members(hub.rooms, d.meetingId) - {h}, UserLeft(d.userId))]
  {
    var d := hub.socketData[h];
    var rooms := LeaveRoom(hub.rooms, d.meetingId, h);
    assert Members(rooms, d.meetingId) - {h} == Members(hub.rooms, d.meetingId) - {h};
  }

  /** A join keeps the registry free of empty meeting maps and its sockets
      bound to data. */
  lemma JoinPreservesHubValid(hub: Hub, h: Handle, req: JoinRequest, result: JoinResult)
    requires HubValid(hub)
    ensures HubValid(JoinStep(hub, h, req, result).hub)
  {
    if result.Accepted? {
      var out := JoinStep(hub, h, req, result);
      var reg := out.hub.registry;
      forall m | m in reg
        ensures reg[m].Keys != {}
      {
        if m == req.meetingId {
          assert req.userId in reg[m];
        } else {
          assert reg[m] == hub.registry[m];
        }
      }
      forall m, u | m in reg && u in reg[m]
        ensures reg[m][u] in out.hub.socketData
      {
        if m != req.meetingId || u != req.userId {
          assert TargetOf(reg, m, u) == TargetOf(hub.registry, m, u);
        }
      }
    }
  }

  /** The leaving routine keeps the registry free of empty meeting maps and
      its sockets bound to data. */
  lemma LeavePreservesHubValid(hub: Hub, h: Handle)
    requires HubValid(hub)
    ensures HubValid(LeaveStep(hub, h).hub)
  {
    if Bound(hub, h) {
      var out := LeaveStep(hub, h);
      var d := hub.socketData[h];
      var reg := out.hub.registry;
      forall m | m in reg
        ensures reg[m].Keys != {}
      {
        if m == d.meetingId {
          assert reg[m] == hub.registry[m] - {d.userId};
        } else {
          assert reg[m] == hub.registry[m];
        }
      }
      forall m, u | m in reg && u in reg[m]
        ensures reg[m][u] in out.hub.socketData
      {
        assert TargetOf(reg, m, u) == TargetOf(hub.registry, m, u);
      }
    }
  }

  /** So does a disconnect, whose room changes do not touch the registry. */
  lemma DisconnectPreservesHubValid(hub: Hub, h: Handle)
    requires HubValid(hub)
    ensures HubValid(DisconnectStep(hub, h).hub)
  {
    LeavePreservesHubValid(hub.(rooms := LeaveAllRooms(hub.rooms, h)), h);
  }

  /** A socket that joins a second meeting keeps its first registration: the
      leaving routine then removes only the registration of the meeting in its
      current data, and the first meeting still routes to the socket. */
  lemma RejoinElsewhereLeavesStaleEntry(hub: Hub, h: Handle, first: JoinRequest, second: JoinRequest,
                                        m1: Meeting, p1: Participant, m2: Meeting, p2: Participant)
    requires first.meetingId != second.meetingId && second.meetingId != ""
    ensures var hub1 := JoinStep(hub, h, first, Accepted(m1, p1)).hub;
      var hub2 := JoinStep(hub1, h, second, Accepted(m2, p2)).hub;
      TargetOf(LeaveStep(hub2, h).hub.registry, first.meetingId, first.userId) == Some(h)
  {
  }

  /** The signaling service: the meeting service it calls and its own state. */
  class SignalingService {
    const service: MeetingService
    var meetings: Registry
    var socketData: map<Handle, SocketData>
    var rooms: map<string, set<Handle>>
    /** Every emission so far, oldest first. */
    var outbox: seq<Emission>

    function State(): Hub
      reads this
    {
      Hub(meetings, socketData, rooms)
    }

    ghost predicate Valid()
      reads this, service.repo
    {
      service.repo.Valid() && HubValid(State())
    }

    constructor (service: MeetingService)
      requires service.repo.Valid()
      ensures Valid()
      ensures this.service == service
      ensures meetings == map[] && socketData == map[] && rooms == map[] && outbox == []
    {
      this.service := service;
      meetings := map[];
      socketData := map[];
      rooms := map[];
      outbox := [];
    }

    /** `join-meeting` from socket `h`. */
    method HandleJoinMeeting(h: Handle, req: JoinRequest, now: Time)
      requires Valid()
      modifies this, service.repo
      ensures Valid()
      ensures var step := Join(old(service.repo.meetings), SocketJoinDto(req), service.passwordMatches, now);
        var out := JoinStep(old(State()), h, req, step.result);
        && service.repo.meetings == step.store
        && State() == out.hub
        && outbox == old(outbox) + out.emitted
    {
      var result := service.JoinMeeting(SocketJoinDto(req), now);
      if result.Rejected? {
        outbox := outbox + [Emission({h}, JoinError(result.message))];
        return;
      }
      BindJoined(h, req, result.meeting, result.participant);
    }

    /** The part of `join-meeting` after the service accepted: register the
        socket, join its room, bind its data and tell everyone. */
    method BindJoined(h: Handle, req: JoinRequest, meeting: Meeting, participant: Participant)
      requires HubValid(State())
      modifies this
      ensures HubValid(State())
      ensures var out := JoinStep(old(State()), h, req, Accepted(meeting, participant));
        State() == out.hub && outbox == old(outbox) + out.emitted
    {
      ghost var hub0 := State();
      var meetingRoom := if req.meetingId in meetings then meetings[req.meetingId] else map[];
      meetingRoom := meetingRoom[req.userId := h];
      meetings := meetings[req.meetingId := meetingRoom];
      rooms := rooms[req.meetingId := Members(rooms, req.meetingId) + {h}];
      socketData := socketData[h := SocketData(req.userId, req.meetingId, req.name)];
      outbox := outbox + [Emission({h}, JoinSuccess(meeting, participant))];
      var existingParticipants := Peers(meetingRoom, socketData, req.userId);
      outbox := outbox + [Emission({h}, ExistingParticipants(existingParticipants))];
      outbox := outbox + [Emission(Members(rooms, req.meetingId) - {h}, UserJoined(req.userId, h, req.name, participant))];
      JoinPreservesHubValid(hub0, h, req, Accepted(meeting, participant));
    }

    /** `offer`, `answer` or `ice-candidate` from socket `h`. */
    method HandleRelay(h: Handle, kind: RelayKind, to: string, body: string)
      requires Valid()
      modifies this
      ensures Valid()
      ensures State() == old(State())
      ensures outbox == old(outbox) + RelayStep(old(State()), h, kind, to, body)
    {
      if h !in socketData || socketData[h].meetingId == "" {
        return;
      }
      var from := socketData[h].userId;
      var meetingId := socketData[h].meetingId;
      var targetSocket := TargetOf(meetings, meetingId, to);
      if targetSocket.Some? {
        outbox := outbox + [Emission({targetSocket.value}, Relay(kind, from, body))];
      }
    }

    /** `chat-message` from socket `h`; the message id and time are given. */
    method HandleChatMessage(h: Handle, message: string, isPrivate: Option<bool>, recipientId: Option<string>,
                             msgId: string, now: Time)
      requires Valid()
      modifies this, service.repo
      ensures Valid()
      ensures State() == old(State())
      ensures !Bound(old(State()), h) ==>
        service.repo.meetings == old(service.repo.meetings) && outbox == old(outbox)
      ensures Bound(old(State()), h) ==>
        var d := old(socketData)[h];
        var step := SendChat(old(service.repo.meetings), d.meetingId, ChatDraftOf(d, message, isPrivate, recipientId), msgId, now);
        && service.repo.meetings == step.store
        && outbox == old(outbox) + ChatStep(old(State()), h, isPrivate, recipientId, step.result)
    {
      if h !in socketData || socketData[h].meetingId == "" {
        return;
      }
      var d := socketData[h];
      var chatMessage := service.SendChatMessage(d.meetingId, ChatDraftOf(d, message, isPrivate, recipientId), msgId, now);
      if isPrivate == Some(true) && Truthy(recipientId) {
        var targetSocket := TargetOf(meetings, d.meetingId, recipientId.value);
        if targetSocket.Some? {
          outbox := outbox + [Emission({targetSocket.value}, Chat(chatMessage))];
        }
        outbox := outbox + [Emission({h}, Chat(chatMessage))];
      } else {
        outbox := outbox + [Emission(Members(rooms, d.meetingId), Chat(chatMessage))];
      }
    }

    /** `toggle-mute`, `toggle-video`, `raise-hand`, `start-screen-share` and
        `stop-screen-share` from socket `h`. */
    method HandleSignal(h: Handle, sig: Signal)
      requires Valid()
      modifies this, service.repo
      ensures Valid()
      ensures State() == old(State())
      ensures service.repo.meetings == SignalStore(old(service.repo.meetings), old(State()), h, sig)
      ensures outbox == old(outbox) + SignalStep(old(State()), h, sig)
    {
      if h !in socketData || socketData[h].meetingId == "" {
        return;
      }
      var d := socketData[h];
      var patch := SignalPatch(sig);
      if patch.Some? {
        var _ := service.UpdateParticipant(d.meetingId, d.userId, patch.value);
      }
      outbox := outbox + [Emission(Members(rooms, d.meetingId) - {h}, Announcement(d, sig))];
    }

    /** `leave-meeting` from socket `h`. */
    method HandleLeaveMeeting(h: Handle, now: Time)
      requires Valid()
      modifies this, service.repo
      ensures Valid()
      ensures service.repo.meetings == LeaveStore(old(service.repo.meetings), old(State()), h, now)
      ensures State() == LeaveStep(old(State()), h).hub
      ensures outbox == old(outbox) + LeaveStep(old(State()), h).emitted
    {
      HandleUserLeaving(h, now);
    }

    /** `disconnect` of socket `h`: it has already left every room. */
    method HandleDisconnect(h: Handle, now: Time)
      requires Valid()
      modifies this, service.repo
      ensures Valid()
      ensures service.repo.meetings == LeaveStore(old(service.repo.meetings), old(State()), h, now)
      ensures State() == DisconnectStep(old(State()), h).hub
      ensures outbox == old(outbox) + DisconnectStep(old(State()), h).emitted
    {
      rooms := LeaveAllRooms(rooms, h);
      HandleUserLeaving(h, now);
    }

    /** `handleUserLeaving`. */
    method HandleUserLeaving(h: Handle, now: Time)
      requires Valid()
      modifies this, service.repo
      ensures Valid()
      ensures service.repo.meetings == LeaveStore(old(service.repo.meetings), old(State()), h, now)
      ensures State() == LeaveStep(old(State()), h).hub
      ensures outbox == old(outbox) + LeaveStep(old(State()), h).emitted
    {
      if h !in socketData || socketData[h].meetingId == "" {
        return;
      }
      LeavePreservesHubValid(State(), h);
      var userId, meetingId := socketData[h].userId, socketData[h].meetingId;
      if meetingId in meetings {
        var meetingRoom := meetings[meetingId] - {userId};
        if meetingRoom.Keys == {} {
          meetings := meetings - {meetingId};
        } else {
          meetings := meetings[meetingId := meetingRoom];
        }
      }
      rooms := LeaveRoom(rooms, meetingId, h);
      var _ := service.LeaveMeeting(meetingId, userId, now);
      outbox := outbox + [Emission(Members(rooms, meetingId) - {h}, UserLeft(userId))];
    }
  }
}
