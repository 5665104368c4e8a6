# meetAsher meeting core in Dafny

A model of the core of the meetAsher video-meeting backend, with proofs about it:

- the meeting lifecycle service (join checks, roles and waiting room, start on host join, leave, end, admit, chat, participant updates);
- the in-memory meeting store, including the positional update that only touches a user's *first* roster entry;
- the WebRTC signaling registry and router;
- the profile-update whitelist;
- the two password generators;
- the meeting-id generator and schema defaults;
- the `ApiError` value and its factories;
- the error-classification chain of the async route wrapper.

Files, by module:

- `meeting_types.dfy` (`MeetingTypes`): meetings, participants, settings, chat messages, the field patches and DTOs, `Option`.
- `meeting_model.dfy` (`MeetingModel`):
  - meeting-id generation, the parse that inverts it, and the pre-save hook;
  - schema defaults and the settings merge.
- `meeting_repository.dfy` (`MeetingStore`): the store as `map<meetingId, Meeting>`.
  - Per-document update functions: `FirstIndex`, `PatchFirst`, `WithStatus`, `NewDocument`.
  - A class `MeetingRepository` whose methods update its `meetings` field in place.
- `meeting_service.dfy` (`Lifecycle`):
  - each service operation as a pure step function `Store -> Step(result, store)` (`Join`, `Leave`, `End`, `Admit`, `SendChat`);
  - the lemmas about those steps;
  - a class `MeetingService` whose methods perform each step through the repository and are proved equal to the step function.
- `signaling.dfy` (`Signaling`): each handler is one step.
  - A socket is an opaque handle.
  - Delivery is an outbox of emissions, each an event addressed to a set of handles.
  - Pure step functions run on a `Hub` value (registry, socket data, rooms).
  - A class `SignalingService` holds these as fields and is proved to perform the step functions.
- `user_service.dfy` (`Profiles`): the whitelist as a function and as the loop that computes it, and the two user-store writes.
- `char_classes.dfy`, `password_generator.dfy`, `encryption.dfy`: the character classes and both generators.
  - Every random draw is a parameter.
  - The shuffle is a sequence of in-place swaps on an array.
- `api_error.dfy` (`ApiErrors`) and `async_handler.dfy` (`AsyncHandler`): the error value, its factories, `toJSON`, and the rule chain that turns a failure into the one `ApiError` passed to `next`.

Parameters stand in for the outside world:

- the clock is an opaque `now`;
- bcrypt is a pair of functions (`hash`, `passwordMatches`); nothing is assumed about `passwordMatches`, and `hash` gives one hash per password (see "## Left out");
- `Math.random` becomes explicit draws;
- the development flag, the ISO timestamp and the stack trace are an `Env`.

Behaviours of the code that a reader might not expect, which the model follows:

- a waiting-room join is registered by the signaling layer;
- admission does not re-check capacity;
- leaving ignores the meeting's status. A cancelled meeting becomes ended when its last participant leaves (`LeaveEndsCancelledMeeting`).
- Leaving ends the meeting whenever no `joined` entry remains afterwards, even if none was `joined` before (`WaitingLeaveEndsMeeting`).

## Model

| member | source | states |
|---|---|---|
| MeetingModel.GenerateMeetingId | src/models/Meeting.model.ts:135-147 | the id is 14 characters, '-' at 4 and 9, letters elsewhere, letter j of segment s is the alphabet letter picked by draw 4s+j |
| MeetingModel.ParseMeetingId | src/models/Meeting.model.ts:135-147 | accepts exactly the well-formed ids and yields valid draws |
| MeetingModel.ParseGenerated | src/models/Meeting.model.ts:135-147 | parsing a generated id gives back its draws |
| MeetingModel.GenerateParsed | src/models/Meeting.model.ts:135-147 | generating from the parsed draws gives back the id |
| MeetingModel.GenerateInjective | src/models/Meeting.model.ts:135-147 | different draws give different ids |
| MeetingModel.Segment | src/models/Meeting.model.ts:141-143 | a segment is four letters, letter j picked by draw 4s+j |
| MeetingModel.PreSaveMeetingId | src/models/Meeting.model.ts:128-132 | a new document without an id gets a generated one; an existing id is never overwritten |
| MeetingModel.MergeSettings | src/repositories/Meeting.repository.ts.ts:25-35 | every settings key is the supplied value when present, else the base value |
| MeetingModel.CastParticipant | src/models/Meeting.model.ts:15-36 | userId and name are required; an omitted role is participant, an omitted status waiting, omitted flags false, joinedAt the save time |
| MeetingModel.BareParticipantDefaults | src/models/Meeting.model.ts:19-33 | a participant with only the required keys is a waiting attendee with every flag off |
| MeetingStore.FirstIndex | src/repositories/Meeting.repository.ts.ts:115-119 | the index the positional update touches: the first entry with that userId, none iff no entry has it |
| MeetingStore.FirstEntry | src/services/MeetingService.ts:95-97 | `participants.find` returns the entry at FirstIndex |
| MeetingStore.JoinedCount | src/services/MeetingService.ts:86-88 | the number of `joined` entries, bounded by the roster length |
| MeetingStore.JoinedCountZero | src/services/MeetingService.ts:149-153 | the count is zero iff no entry is `joined` |
| MeetingStore.JoinedCountAppend | src/services/MeetingService.ts:86-92 | appending adds one to the count iff the new entry is `joined` |
| MeetingStore.JoinedCountReplace | src/services/MeetingService.ts:149-153 | replacing one entry changes the count only by that entry's contribution |
| MeetingStore.PatchFirst | src/repositories/Meeting.repository.ts.ts:129-144 | no match gives none; otherwise only the first matching entry is patched, the others and the length are unchanged |
| MeetingStore.PatchParticipant | src/repositories/Meeting.repository.ts.ts:129-144 | the document with its roster patched as PatchFirst says, none when no entry matches |
| MeetingStore.NewDocument | src/repositories/Meeting.repository.ts.ts:17-38 | a new meeting is scheduled, with empty roster and chat, not recording, and settings the defaults overridden key by key |
| MeetingStore.MergeNothing | src/repositories/Meeting.repository.ts.ts:25-35 | with no key supplied the settings are the defaults |
| MeetingStore.ApplyPatch | src/repositories/Meeting.repository.ts.ts:134-137 | each supplied key overwrites the entry's value and every other key stays; its contract is carried by `PatchFirst` |
| MeetingStore.WithStatus | src/repositories/Meeting.repository.ts.ts:74-91 | the status write with startedAt only for active and endedAt only for ended; carried by `UpdateStatus`, `JoinStatus`, `LeaveEffect` and `EndEffect` |
| MeetingStore.MissingRequired | src/models/Meeting.model.ts:61-77 | exactly the required paths meetingId, title and hostId that are empty |
| MeetingStore.SaveAsWritten | src/models/Meeting.model.ts:128-132 | validation of the required paths runs before the pre-save hook; its contract is `CreateAsWrittenRefused` |
| MeetingStore.CreateAsWrittenRefused | src/models/Meeting.model.ts:61-66 | the document `create` builds lacks meetingId at validation, so every save as written is refused |
| MeetingStore.SaveIntended | src/models/Meeting.model.ts:128-132 | the id is generated, then the required paths are validated; its contract is `SaveIntendedAccepts` |
| MeetingStore.SaveIntendedAccepts | src/models/Meeting.model.ts:61-77 | with the id generated first, a new document is accepted iff title and hostId are non-empty, and it carries the generated id |
| MeetingStore.InsertSorted | src/repositories/Meeting.repository.ts.ts:177-181 | inserting keeps the list sorted by descending start, adds exactly the new meeting, and keeps it duplicate-free |
| MeetingStore.MeetingRepository.Create | src/repositories/Meeting.repository.ts.ts:17-41 | the document gets the generated id before validation; it is refused when title or hostId is empty, stored unless that id is taken, in which case nothing changes |
| MeetingStore.MeetingRepository.FindById | src/repositories/Meeting.repository.ts.ts:46-48 | returns the stored meeting under that id, none iff absent |
| MeetingStore.MeetingRepository.UpdateStatus | src/repositories/Meeting.repository.ts.ts:74-91 | sets the status, startedAt only for active, endedAt only for ended; an unknown id changes nothing |
| MeetingStore.MeetingRepository.AddParticipant | src/repositories/Meeting.repository.ts.ts:96-105 | appends the entry at the end, nothing else changes |
| MeetingStore.MeetingRepository.UpdateParticipant | src/repositories/Meeting.repository.ts.ts:129-144 | writes the supplied keys onto the first matching entry only; no match changes nothing and returns none |
| MeetingStore.MeetingRepository.RemoveParticipant | src/repositories/Meeting.repository.ts.ts:110-124 | the first matching entry becomes `left` with leftAt; no match changes nothing and returns none |
| MeetingStore.MeetingRepository.AddChatMessage | src/repositories/Meeting.repository.ts.ts:149-158 | appends the message at the end, nothing else changes |
| MeetingStore.MeetingRepository.ToggleRecording | src/repositories/Meeting.repository.ts.ts:163-172 | changes only isRecording |
| MeetingStore.MeetingRepository.GetActiveMeetings | src/repositories/Meeting.repository.ts.ts:177-181 | exactly the active meetings, each once, latest start first |
| MeetingStore.MeetingRepository.Delete | src/repositories/Meeting.repository.ts.ts:186-189 | true iff the meeting existed; afterwards it does not, others untouched |
| Lifecycle.JoinRejection | src/services/MeetingService.ts:54-101 | the seven checks in source order; carried by `JoinRejectionOrder`, `PasswordIgnoredUnlessProtected`, `FullIgnoresNonJoined` and `NoPasswordMeansPasswordRequired` |
| Lifecycle.NewParticipant | src/services/MeetingService.ts:103-121 | the pushed entry's role, status, flags and joinedAt; carried by `JoinAccepted` |
| Lifecycle.Join | src/services/MeetingService.ts:48-139 | `joinMeeting` as one step; carried by `JoinRejectedUnchanged`, `JoinAccepted`, `JoinStatus`, `RejoinKeepsOlderEntry` and `SecondJoinRejected` |
| Lifecycle.Leave | src/services/MeetingService.ts:144-159 | `leaveMeeting` as one step; carried by `LeaveEffect`, `LeaveWithoutEntry`, `LeaveEndsCancelledMeeting` and `WaitingLeaveEndsMeeting` |
| Lifecycle.End | src/services/MeetingService.ts:199-216 | `endMeeting` as one step; carried by `EndEffect` |
| Lifecycle.Admit | src/services/MeetingService.ts:240-260 | `admitParticipant` as one step; carried by `AdmitEffect` and `AdmitIgnoresCapacity` |
| Lifecycle.Stamp | src/services/MeetingService.ts:185-189 | the draft with an id and a timestamp; carried by `MeetingService.SendChatMessage` |
| Lifecycle.SendChat | src/services/MeetingService.ts:181-194 | `sendChatMessage` as one step; carried by `MeetingService.SendChatMessage` and `SignalingService.HandleChatMessage` |
| Lifecycle.Lookup | src/repositories/Meeting.repository.ts.ts:46-48 | the stored meeting, none iff absent |
| Lifecycle.HashSettings | src/services/MeetingService.ts:29-31 | the password is hashed iff requirePassword is on and a password is given, else the settings pass unchanged |
| Lifecycle.JoinRejectionOrder | src/services/MeetingService.ts:54-101 | each rejection message holds iff its check fails and every earlier check passed, in the source order |
| Lifecycle.JoinRejectedUnchanged | src/services/MeetingService.ts:54-101 | a join is rejected iff a check fails, and a rejected join leaves the store unchanged |
| Lifecycle.PasswordIgnoredUnlessProtected | src/services/MeetingService.ts:70-83 | without requirePassword and a stored password, the supplied password and the hash check do not affect the outcome |
| Lifecycle.FullIgnoresNonJoined | src/services/MeetingService.ts:86-92 | entries that are not `joined` never change whether the meeting is full |
| Lifecycle.FirstIndexAppend | src/services/MeetingService.ts:124-127 | appending never moves a user's first entry |
| Lifecycle.JoinAccepted | src/services/MeetingService.ts:103-127 | an accepted join appends exactly one entry: host iff the joiner is the host, waiting iff waiting room and not host, every flag off; the returned meeting is the document after the push |
| Lifecycle.JoinStatus | src/services/MeetingService.ts:129-132 | after a join the meeting is active iff it was active or the host joined a scheduled meeting; a host rejoin of an active meeting keeps startedAt |
| Lifecycle.RejoinKeepsOlderEntry | src/services/MeetingService.ts:95-101 | a rejoin appends a second entry; the first entry stays the one positional updates reach |
| Lifecycle.SecondJoinRejected | src/services/MeetingService.ts:95-101 | a user whose first entry is `joined` is rejected, store unchanged |
| Lifecycle.NoPasswordMeansPasswordRequired | src/services/MeetingService.ts:70-73 | no password at a live protected meeting gives 'Password required' |
| Lifecycle.LeaveEffect | src/services/MeetingService.ts:144-159 | only the user's first entry becomes `left` with leftAt; the meeting ends iff no `joined` entry remains |
| Lifecycle.LeaveWithoutEntry | src/services/MeetingService.ts:144-159 | with no entry for the user, or no such meeting, nothing changes and the result is none |
| Lifecycle.LeaveEndsCancelledMeeting | src/services/MeetingService.ts:144-155 | the last participant leaving a cancelled meeting makes it ended |
| Lifecycle.WaitingLeaveEndsMeeting | src/services/MeetingService.ts:149-155 | a leave from a meeting with no `joined` entry ends the meeting |
| Lifecycle.EndEffect | src/services/MeetingService.ts:199-216 | not found or a non-host is refused with no change; the host ends the meeting whatever its roster |
| Lifecycle.AdmitEffect | src/services/MeetingService.ts:240-260 | not found or a non-host is refused with no change; success even when the user has no entry |
| Lifecycle.AdmitIgnoresCapacity | src/services/MeetingService.ts:255-257 | admission sets the first entry `joined` and may take the count past the maximum |
| Lifecycle.MeetingService.CreateMeeting | src/services/MeetingService.ts:27-35 | the stored document is the new document with the hashed settings and the generated id |
| Lifecycle.MeetingService.GetMeeting | src/services/MeetingService.ts:40-43 | returns the stored meeting, none iff absent |
| Lifecycle.MeetingService.JoinMeeting | src/services/MeetingService.ts:48-139 | result and new store are exactly the `Join` step |
| Lifecycle.MeetingService.LeaveMeeting | src/services/MeetingService.ts:144-159 | result and new store are exactly the `Leave` step |
| Lifecycle.MeetingService.UpdateParticipant | src/services/MeetingService.ts:164-176 | the store is patched on the first matching entry; the result is the updated meeting, none iff nothing matched |
| Lifecycle.MeetingService.SendChatMessage | src/services/MeetingService.ts:181-194 | the stamped message is appended to the meeting's chat and returned |
| Lifecycle.MeetingService.EndMeeting | src/services/MeetingService.ts:199-216 | result and new store are exactly the `End` step |
| Lifecycle.MeetingService.ToggleRecording | src/services/MeetingService.ts:221-227 | only isRecording changes; unknown meeting gives none |
| Lifecycle.MeetingService.AdmitParticipant | src/services/MeetingService.ts:240-260 | result and new store are exactly the `Admit` step |
| Signaling.SocketJoinDto | src/services/WebRTCSignaling.service.ts:57-65 | the socket path forwards meeting, user, name and email, and never a password |
| Signaling.LeaveRoom | src/services/WebRTCSignaling.service.ts:351 | the socket leaves that room only |
| Signaling.LeaveAllRooms | src/services/WebRTCSignaling.service.ts:323-327 | on disconnect the socket is in no room, every room otherwise unchanged |
| Signaling.TargetOf | src/services/WebRTCSignaling.service.ts:134-135 | the registered socket of a user in a meeting, none iff unregistered |
| Signaling.Register | src/services/WebRTCSignaling.service.ts:72-78 | the user maps to this socket, replacing any earlier one; nothing else changes |
| Signaling.Unregister | src/services/WebRTCSignaling.service.ts:340-348 | the user is unregistered, every other registration kept, no meeting key added |
| Signaling.Peers | src/services/WebRTCSignaling.service.ts:92-99 | exactly the other registered users, with their sockets and names |
| Signaling.JoinStep | src/services/WebRTCSignaling.service.ts:67-110 | the `join-meeting` handler after the service's answer; carried by `JoinRejectedSignal`, `JoinAcceptedBinds`, `JoinAnnouncements` and `JoinPreservesHubValid` |
| Signaling.RelayStep | src/services/WebRTCSignaling.service.ts:128-142 | the relay handlers' emission; carried by `RelayRouting` |
| Signaling.ChatStep | src/services/WebRTCSignaling.service.ts:219-231 | the chat routing; carried by `ChatRouting` |
| Signaling.SignalStep | src/services/WebRTCSignaling.service.ts:238-308 | the status handlers' announcement; carried by `SignalsExcludeSender` |
| Signaling.SignalStore | src/services/WebRTCSignaling.service.ts:238-308 | the flag write of the mute, video and hand handlers; carried by `SignalingService.HandleSignal` |
| Signaling.LeaveStep | src/services/WebRTCSignaling.service.ts:333-358 | `handleUserLeaving` on the registry, rooms and outbox; carried by `LeaveUnbound`, `LeaveBound` and `LeavePreservesHubValid` |
| Signaling.LeaveStore | src/services/WebRTCSignaling.service.ts:333-354 | the store write of the leaving routine; carried by `LeaveUnbound` and `SignalingService.HandleUserLeaving` |
| Signaling.DisconnectStep | src/services/WebRTCSignaling.service.ts:323-327 | leave every room, then the leaving routine; carried by `DisconnectPreservesHubValid` and `SignalingService.HandleDisconnect` |
| Signaling.JoinRejectedSignal | src/services/WebRTCSignaling.service.ts:67-70 | a failed join emits only `join-error` to the requester and changes no state |
| Signaling.JoinAcceptedBinds | src/services/WebRTCSignaling.service.ts:72-84 | a successful (also waiting) join binds the user to this socket, replacing any earlier one, and sets the socket data |
| Signaling.JoinAnnouncements | src/services/WebRTCSignaling.service.ts:86-110 | join-success, then existing-participants with every other registered user and never the joiner, then user-joined to the room without the joiner |
| Signaling.SocketJoinOfProtectedMeeting | src/services/WebRTCSignaling.service.ts:57-65 | a socket join of a live protected meeting is always 'Password required' with no change |
| Signaling.RelayRouting | src/services/WebRTCSignaling.service.ts:128-142 | nothing for an unbound sender or an unregistered target; otherwise one emission to the target's socket, from the sender's userId |
| Signaling.ChatRouting | src/services/WebRTCSignaling.service.ts:219-231 | a private message with a recipient goes to the recipient's socket if registered and is echoed to the sender; any other to the whole room |
| Signaling.SignalsExcludeSender | src/services/WebRTCSignaling.service.ts:238-308 | mute, video, hand and screen-share events reach the room minus the sender; nothing from an unbound socket |
| Signaling.LeaveUnbound | src/services/WebRTCSignaling.service.ts:333-336 | leaving on an unbound socket changes nothing and emits nothing |
| Signaling.LeaveBound | src/services/WebRTCSignaling.service.ts:338-358 | the user's registration is removed whichever socket it held, others kept, `user-left` to the rest of the room |
| Signaling.JoinPreservesHubValid | src/services/WebRTCSignaling.service.ts:72-84 | a join keeps every meeting map non-empty and every registered socket bound |
| Signaling.LeavePreservesHubValid | src/services/WebRTCSignaling.service.ts:340-348 | leaving keeps every meeting map non-empty |
| Signaling.DisconnectPreservesHubValid | src/services/WebRTCSignaling.service.ts:323-327 | so does a disconnect |
| Signaling.RejoinElsewhereLeavesStaleEntry | src/services/WebRTCSignaling.service.ts:72-84 | a socket that joins a second meeting stays registered in the first after it leaves |
| Signaling.SignalingService.HandleJoinMeeting | src/services/WebRTCSignaling.service.ts:49-118 | store, state and outbox are exactly the `Join` step followed by `JoinStep` |
| Signaling.SignalingService.BindJoined | src/services/WebRTCSignaling.service.ts:72-110 | state and outbox are exactly `JoinStep` on an accepted join |
| Signaling.SignalingService.HandleRelay | src/services/WebRTCSignaling.service.ts:123-196 | state unchanged, outbox extended by `RelayStep` |
| Signaling.SignalingService.HandleChatMessage | src/services/WebRTCSignaling.service.ts:201-233 | the message is stored through `SendChat` and routed by `ChatStep`; nothing from an unbound socket |
| Signaling.SignalingService.HandleSignal | src/services/WebRTCSignaling.service.ts:238-309 | the flag is written on the first matching entry and the announcement emitted by `SignalStep` |
| Signaling.SignalingService.HandleLeaveMeeting | src/services/WebRTCSignaling.service.ts:314-318 | state, store and outbox are exactly the leaving step |
| Signaling.SignalingService.HandleDisconnect | src/services/WebRTCSignaling.service.ts:323-328 | state, store and outbox are exactly `DisconnectStep` and the leaving step |
| Signaling.SignalingService.HandleUserLeaving | src/services/WebRTCSignaling.service.ts:333-358 | state, store and outbox are exactly `LeaveStep` and `Leave` |
| Profiles.Whitelisted | src/services/UserService.ts:23-30 | the keys are exactly the input's keys in {phoneNumber, recoveryEmail, hint}, values unchanged |
| Profiles.WhitelistIdempotent | src/services/UserService.ts:23-30 | filtering twice equals filtering once |
| Profiles.WhitelistKeepsAllowed | src/services/UserService.ts:26-30 | an input of only allowed keys passes unchanged; any other key is dropped |
| Profiles.SetKeys | src/services/UserService.ts:32 | the given keys overwrite, all other keys stay |
| Profiles.SecurityUpdate | src/services/UserService.ts:36-39 | the write holds exactly securityQuestion and securityAnswer |
| Profiles.UserRepository.Update | src/repositories/UserRepository.ts:25-31 | a live record gets the keys merged; a missing or deleted one changes nothing and returns none |
| Profiles.UserService.FilterProfileUpdate | src/services/UserService.ts:23-30 | the loop's result equals `Whitelisted` of the input |
| Profiles.UserService.UpdateProfile | src/services/UserService.ts:22-33 | the store receives exactly the whitelisted keys |
| Profiles.UserService.UpdateSecurityQuestion | src/services/UserService.ts:35-40 | the store receives exactly the question and answer |
| Profiles.ProfileUpdateKeepsOtherKeys | src/services/UserService.ts:22-33 | a profile update changes no key outside the whitelist |
| Profiles.SecurityUpdateKeepsOtherKeys | src/services/UserService.ts:35-40 | the security write adds the two keys and changes no other |
| CharClasses.ClassChars | src/utils/PasswordGenerator.ts:3-4 | each class string holds only characters of its class, and the classes do not overlap |
| CharClasses.HasClassConcat | src/utils/PasswordGenerator.ts:11-14 | a class test on a concatenation holds iff it holds on either part |
| PasswordGenerator.Drawn | src/utils/PasswordGenerator.ts:5-8 | ten characters, each the charset character its draw picks |
| PasswordGenerator.Filler | src/utils/PasswordGenerator.ts:11-14 | 'A', 'a', '1', '@' belong to their own class and no other |
| PasswordGenerator.FillerClasses | src/utils/PasswordGenerator.ts:11-14 | a one-filler string passes its own class test and no other |
| PasswordGenerator.FillKeepsOthers | src/utils/PasswordGenerator.ts:11-14 | an appended filler changes no other class test |
| PasswordGenerator.Completion | src/utils/PasswordGenerator.ts:11-14 | the suffix the four checks append; carried by `CompletionHasAllClasses` and `CompletionShape` |
| PasswordGenerator.Checked | src/utils/PasswordGenerator.ts:11-14 | one conditional append; carried by `ChecksComplete` and `LaterChecksSeeTheDraw` |
| PasswordGenerator.GeneratePassword | src/utils/PasswordGenerator.ts:2-17 | the result is the draw followed by `Completion` of the draw |
| PasswordGenerator.ChecksComplete | src/utils/PasswordGenerator.ts:11-14 | the four sequential checks append exactly `Completion` of the draw |
| PasswordGenerator.LaterChecksSeeTheDraw | src/utils/PasswordGenerator.ts:11-14 | each check answers as it would on the bare draw |
| PasswordGenerator.ClassAfterFills | src/utils/PasswordGenerator.ts:13-14 | the digit and special checks see the draw's answer after earlier fills |
| PasswordGenerator.FillAbsent | src/utils/PasswordGenerator.ts:11-14 | a filler never passes another class's test |
| PasswordGenerator.CompletionHasAllClasses | src/utils/PasswordGenerator.ts:11-14 | the result contains every class |
| PasswordGenerator.CompletionShape | src/utils/PasswordGenerator.ts:11-14 | the suffix is an in-order subsequence of "Aa1@", a filler present iff its class is missing, empty when all are present |
| PasswordGenerator.GeneratedPasswordShape | src/utils/PasswordGenerator.ts:2-17 | begins with the draw, every character in the charset, every class present, length 10 to 14 |
| SecurePassword.PasswordLength | src/utils/encryption.ts:46 | floor(r*5)+8 lies in 8..12 for r in [0, 1) |
| SecurePassword.Shuffled | src/utils/encryption.ts:52 | swaps keep the length |
| SecurePassword.ShuffledPermutes | src/utils/encryption.ts:52 | the shuffle is a permutation (multiset preserved) |
| SecurePassword.Unshuffled | src/utils/encryption.ts:37-49 | the unshuffled password has the four class draws plus the fill |
| SecurePassword.GenerateSecurePassword | src/utils/encryption.ts:28-53 | the result is the swaps applied to the unshuffled password |
| SecurePassword.UnshuffledShape | src/utils/encryption.ts:37-48 | before shuffling: lower, upper, digit, special first, every character from allChars |
| SecurePassword.SecurePasswordShape | src/utils/encryption.ts:37-52 | length floor(r*5)+8 in 8..12, every character from allChars, every class present |
| ApiErrors.NormaliseErrors | src/utils/ApiError.ts:26-29 | a truthy non-array `errors` is wrapped, a list kept, a falsy value left; a truthy result is always a list |
| ApiErrors.NewApiError | src/utils/ApiError.ts:18-36 | success false, isOperational defaults to true, name ApiError, timestamp set, `errors` normalised, other data keys kept |
| ApiErrors.ToJson | src/utils/ApiError.ts:164-186 | always the six base keys; path, stack and details iff development |
| ApiErrors.ClientError | src/utils/ApiError.ts:39-132 | the nine client factories; carried by `ClientErrorShape`, `ClientStatusInjective` and `FactoriesNormalised` |
| ApiErrors.ValidationError | src/utils/ApiError.ts:57-64 | `validationError`; carried by `ValidationErrorShape` and `FactoriesNormalised` |
| ApiErrors.UpstreamError | src/utils/ApiError.ts:136-161 | the three upstream factories; carried by `UpstreamErrorShape` and `FactoriesNormalised` |
| ApiErrors.ClientErrorShape | src/utils/ApiError.ts:39-134 | each client factory's status and code, message or default as the only `errors` entry, details kept |
| ApiErrors.ClientStatusInjective | src/utils/ApiError.ts:39-134 | no two client factories share a status |
| ApiErrors.ValidationErrorShape | src/utils/ApiError.ts:57-64 | 422 'Validation failed' VALIDATION_ERROR; a lone string is wrapped, a list kept |
| ApiErrors.UpstreamErrorShape | src/utils/ApiError.ts:136-161 | 502/503/504 with fixed `errors` texts; details only in development |
| ApiErrors.FactoriesNormalised | src/utils/ApiError.ts:39-161 | every factory's error is unsuccessful, operational, timestamped, and has list `errors` |
| ApiErrors.EmptyTextErrorsNotWrapped | src/utils/ApiError.ts:27-29 | for every status, message, other data and flag, an empty-string `errors` is falsy and stays as it is, not a list |
| AsyncHandler.RuleOf | src/utils/asyncHandler.ts:21-79 | the chain of tests; carried by `RuleOfIsFirstMatch` |
| AsyncHandler.Classify | src/utils/asyncHandler.ts:21-79 | the error each rule hands to `next`; carried by `ApiErrorPassesThrough`, `ClassifiedShape` and the per-rule lemmas |
| AsyncHandler.RuleOfIsFirstMatch | src/utils/asyncHandler.ts:21-79 | the rule chosen is the first, in source order, whose test matches |
| AsyncHandler.NextCalls | src/utils/asyncHandler.ts:9-10 | at most one `next` call, exactly one iff the handler failed |
| AsyncHandler.FailureCallsNextOnce | src/utils/asyncHandler.ts:9-80 | a completed handler makes no call; a failed one makes one, with its classification |
| AsyncHandler.ApiErrorPassesThrough | src/utils/asyncHandler.ts:21-23 | an ApiError is forwarded unchanged |
| AsyncHandler.ClassifiedShape | src/utils/asyncHandler.ts:26-79 | any other failure becomes an unsuccessful, operational error with list `errors` and status in {400, 401, 413, 422, 500, 502, 504} |
| AsyncHandler.ValidationRules | src/utils/asyncHandler.ts:26-42 | 422 iff ValidationError, code 11000 or CastError, carrying the field messages, '<first key> already exists' or 'Invalid <path>: <value>' |
| AsyncHandler.TokenRules | src/utils/asyncHandler.ts:45-51 | 401 iff a token error, with 'Invalid token' or 'Token expired' |
| AsyncHandler.UploadRules | src/utils/asyncHandler.ts:53-62 | file-size limit gives 413 with the 5MB message, other upload errors 400 with their message; both name the field |
| AsyncHandler.ExternalRules | src/utils/asyncHandler.ts:64-75 | 504 iff the response status is 504, else 502; 'External service timeout' iff ECONNABORTED (or that statusText); details only in development |
| AsyncHandler.FallbackRule | src/utils/asyncHandler.ts:79 | 500 with the error's message, or 'Something went wrong' |
| AsyncHandler.ValidationBeforeDuplicateKey | src/utils/asyncHandler.ts:26-36 | a ValidationError carrying code 11000 reports its field messages, not the duplicate key |

## Left out

- I/O and plumbing: socket.io transport, Express request/response, logging, and Mongoose itself (queries, validation order, unique index behaviour beyond "an existing id is refused").
- Concurrency: each handler is one atomic step. The awaits between a read and a write (for example between the lookup and the push in `joinMeeting`) are not interleaved.
- Exceptions: the `try/catch` in the join handler that emits 'Failed to join meeting' is not modelled. Neither are the TypeErrors the error wrapper itself would throw on a ValidationError without `errors` or a duplicate-key error without `keyValue`.
- Time and randomness are parameters:
  - the clock reading, the chat message id (`msg_<time>_<random>`) and the ISO timestamp;
  - every `Math.random` draw;
  - bcrypt hashing and comparison.
- `findByHostId`, `findUserMeetings`, `getUserMeetings` and `getUserProfile` are read-only queries with a sort and limit, and are not modelled.
- `encryptData` and `decryptData`: AES through node crypto.
- SecurePassword.GenerateSecurePassword: `sort` with a random comparator is modelled as an arbitrary sequence of swaps. That covers every permutation, but not which permutations the engine's sort actually produces, or with what likelihood.
- Signaling.Peers: `existing-participants` is modelled as a set; the order of the Map's entries is not modelled.
- Profiles.Json: request bodies holding numbers are modelled with integers; floating point values are not modelled.
- Profiles.UserRepository.Update: the user store is modelled only as a `$set` merge on a non-deleted record. The user schema's pre-save hashing of the security answer does not run on `findOneAndUpdate`, so the model stores the answer as given, as the code does.
- ApiErrors.Details: `details` holds only the caught error's name and message, or the field reference. The error stays reachable through `details`, but the model does not capture that aliasing, nor the other fields of the caught error.
- ApiErrors.NewApiError: spreading `undefined` keys into the data is modelled as the key being absent.
- MeetingStore.MeetingRepository.Create: models the create the code evidently intends, with the id generated before validation (see "## Findings"). As written, Mongoose validates the required `meetingId` before the pre-save hook; every real `create` is refused with "Path `meetingId` is required.", which the error wrapper turns into a 422. Only the empty-string form of a missing `title` or `hostId` is checked; other schema casts and validators are not modelled.
- Lifecycle.HashSettings: bcrypt's `hash` salts at random. The model's `hash` is a function, so it gives one hash per password; no proof relies on two hashes of the same password being equal.

## Findings

| source | as written | input that shows it | evidently intended | confidence | as-written member | corrected member |
|---|---|---|---|---|---|---|
| src/models/Meeting.model.ts:128-132 | `meetingId` is `required` and is only filled in by a `pre('save')` hook, which Mongoose runs after validation | any `createMeeting`, for example title "T" and hostId "h" | generate the id before validation (a `pre('validate')` hook); `create` then succeeds iff title and hostId are present and the id is free | not executed; relies on Mongoose running validation before `pre('save')` hooks | MeetingStore.CreateAsWrittenRefused | MeetingStore.SaveIntendedAccepts |
