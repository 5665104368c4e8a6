/** The meeting store: a collection of meeting documents keyed by `meetingId`,
    and the repository whose operations update one stored document in place.
    The positional update the store offers (`participants.$`) changes the FIRST
    roster entry whose `userId` matches; `FirstIndex` says which one that is. */
module MeetingStore {
  import opened MeetingTypes
  import MeetingModel

  type Store = map<string, Meeting>

  // ---------------------------------------------------------------------------
  // Roster queries

  /** The entry a positional update touches: the first one with this `userId`. */
  function FirstIndex(roster: seq<Participant>, userId: string): (r: Option<nat>)
    ensures r.Some? ==> r.value < |roster| && roster[r.value].userId == userId
    ensures r.Some? ==> forall j :: 0 <= j < r.value ==> roster[j].userId != userId
    ensures r.None? <==> forall j :: 0 <= j < |roster| ==> roster[j].userId != userId
    decreases |roster|
  {
    if |roster| == 0 then None
    else if roster[0].userId == userId then Some(0)
    else match FirstIndex(roster[1..], userId)
      case None => None
      case Some(i) => Some(i + 1)
  }

  /** The first entry with this `userId`, as `participants.find` picks it. */
  function FirstEntry(roster: seq<Participant>, userId: string): (r: Option<Participant>)
    ensures r.Some? <==> FirstIndex(roster, userId).Some?
    ensures r.Some? ==> r.value == roster[FirstIndex(roster, userId).value]
  {
    match FirstIndex(roster, userId)
    case None => None
    case Some(i) => Some(roster[i])
  }

  /** Number of roster entries whose status is `joined`. */
  function JoinedCount(roster: seq<Participant>): (n: nat)
    ensures n <= |roster|
  {
    if |roster| == 0 then 0
    else (if roster[0].status == Joined then 1 else 0) + JoinedCount(roster[1..])
  }

  /** No entry is `joined` exactly when the count is zero. */
  lemma {:induction false} JoinedCountZero(roster: seq<Participant>)
    ensures JoinedCount(roster) == 0 <==> forall j :: 0 <= j < |roster| ==> roster[j].status != Joined
  {
    if |roster| > 0 {
      JoinedCountZero(roster[1..]);
      assert forall j :: 1 <= j < |roster| ==> roster[j] == roster[1..][j - 1];
    }
  }

  /** Appending an entry adds one to the count iff that entry is `joined`. */
  lemma {:induction false} JoinedCountAppend(roster: seq<Participant>, p: Participant)
    ensures JoinedCount(roster + [p]) == JoinedCount(roster) + (if p.status == Joined then 1 else 0)
  {
    if |roster| > 0 {
      assert (roster + [p])[1..] == roster[1..] + [p];
      JoinedCountAppend(roster[1..], p);
    } else {
      assert [p][1..] == [];
    }
  }

  /** Replacing one entry changes the count only by that entry's contribution. */
  lemma {:induction false} JoinedCountReplace(roster: seq<Participant>, i: nat, p: Participant)
    requires i < |roster|
    ensures JoinedCount(roster[i := p]) + (if roster[i].status == Joined then 1 else 0)
         == JoinedCount(roster) + (if p.status == Joined then 1 else 0)
  {
    if i > 0 {
      assert roster[i := p][1..] == roster[1..][i - 1 := p];
      JoinedCountReplace(roster[1..], i - 1, p);
    } else {
      assert roster[0 := p][1..] == roster[1..];
    }
  }

  // ---------------------------------------------------------------------------
  // Document updates, one per repository write

  /** Writes exactly the keys present in `patch` onto one participant. */
  function ApplyPatch(p: Participant, patch: ParticipantPatch): Participant {
    Participant(
      patch.userId.GetOr(p.userId),
      patch.name.GetOr(p.name),
      if patch.email.Some? then patch.email else p.email,
      patch.role.GetOr(p.role),
      patch.status.GetOr(p.status),
      patch.joinedAt.GetOr(p.joinedAt),
      if patch.leftAt.Some? then patch.leftAt else p.leftAt,
      patch.isMuted.GetOr(p.isMuted),
      patch.isVideoOff.GetOr(p.isVideoOff),
      patch.isHandRaised.GetOr(p.isHandRaised),
      if patch.socketId.Some? then patch.socketId else p.socketId,
      if patch.peerId.Some? then patch.peerId else p.peerId)
  }

  /** The patch `removeParticipant` writes. */
  function LeftPatch(now: Time): ParticipantPatch {
    EmptyPatch.(status := Some(Left), leftAt := Some(now))
  }

  /** The positional `$set`: `None` when no entry has `userId` (the update's
      filter matches no document); otherwise the roster with only the first
      matching entry patched. */
  function PatchFirst(roster: seq<Participant>, userId: string, patch: ParticipantPatch)
    : (r: Option<seq<Participant>>)
    ensures r.None? <==> forall j :: 0 <= j < |roster| ==> roster[j].userId != userId
    ensures r.Some? ==> var i := FirstIndex(roster, userId).value;
      && |r.value| == |roster|
      && r.value[i] == ApplyPatch(roster[i], patch)
      && forall j :: 0 <= j < |roster| && j != i ==> r.value[j] == roster[j]
  {
    match FirstIndex(roster, userId)
    case None => None
    case Some(i) => Some(roster[i := ApplyPatch(roster[i], patch)])
  }

  /** `updateParticipant` on one document. */
  function PatchParticipant(m: Meeting, userId: string, patch: ParticipantPatch): (r: Option<Meeting>)
    ensures r.None? <==> PatchFirst(m.participants, userId, patch).None?
    ensures r.Some? ==> r.value == m.(participants := PatchFirst(m.participants, userId, patch).value)
  {
    match PatchFirst(m.participants, userId, patch)
    case None => None
    case Some(roster) => Some(m.(participants := roster))
  }

  /** `updateStatus` on one document: the status, plus `startedAt` when it
      becomes active and `endedAt` when it ends. */
  function WithStatus(m: Meeting, status: MeetingStatus, now: Time): Meeting {
    m.(status := status,
       startedAt := if status == Active then Some(now) else m.startedAt,
       endedAt := if status == Ended then Some(now) else m.endedAt)
  }

  /** The document `create` builds before it is saved: no id yet, status
      scheduled, empty roster and chat, settings from the defaults overridden
      by the supplied keys, and the schema default for `isRecording`. */
  function NewDocument(dto: CreateMeetingDto): (m: Meeting)
    ensures m.meetingId == "" && m.title == dto.title && m.hostId == dto.hostId
    ensures m.status == Scheduled && m.participants == [] && m.chatMessages == []
    ensures !m.isRecording && m.startedAt.None? && m.endedAt.None?
    ensures dto.settings.None? ==> m.settings == MeetingModel.DefaultSettings
    ensures dto.settings.Some? ==> m.settings == MeetingModel.MergeSettings(MeetingModel.DefaultSettings, dto.settings.value)
  {
    Meeting(
      meetingId := "",
      title := dto.title,
      description := dto.description,
      hostId := dto.hostId,
      scheduledAt := dto.scheduledAt,
      startedAt := None,
      endedAt := None,
      duration := dto.duration,
      status := Scheduled,
      participants := [],
      settings := if dto.settings.Some? then MeetingModel.MergeSettings(MeetingModel.DefaultSettings, dto.settings.value)
                  else MeetingModel.DefaultSettings,
      recordingUrl := None,
      isRecording := MeetingModel.DefaultIsRecording,
      chatMessages := [])
  }

  /** Merging with no key present gives the defaults back. */
  lemma MergeNothing()
    ensures MeetingModel.MergeSettings(MeetingModel.DefaultSettings,
      SettingsPatch(None, None, None, None, None, None, None, None, None)) == MeetingModel.DefaultSettings
  {
  }

  /** The schema's required string paths that a document leaves empty;
      Mongoose's required check refuses an empty string. */
  function MissingRequired(m: Meeting): (r: set<string>)
    ensures "meetingId" in r <==> m.meetingId == ""
    ensures "title" in r <==> m.title == ""
    ensures "hostId" in r <==> m.hostId == ""
    ensures r <= {"meetingId", "title", "hostId"}
  {
    (if m.meetingId == "" then {"meetingId"} else {})
    + (if m.title == "" then {"title"} else {})
    + (if m.hostId == "" then {"hostId"} else {})
  }

  /** `save` of a new document as the schema is written: Mongoose validates
      the required paths before any `pre('save')` hook runs, so the hook's
      generated id comes after the check it was needed for. */
  function SaveAsWritten(doc: Meeting, draws: seq<nat>): Option<Meeting>
    requires MeetingModel.ValidDraws(draws)
  {
    if MissingRequired(doc) != {} then None
    else Some(doc.(meetingId := MeetingModel.PreSaveMeetingId(true, doc.meetingId, draws)))
  }

  /** As written, every `create` is refused: the document it builds has no
      id when validation runs. */
  lemma CreateAsWrittenRefused(dto: CreateMeetingDto, draws: seq<nat>)
    requires MeetingModel.ValidDraws(draws)
    ensures "meetingId" in MissingRequired(NewDocument(dto))
    ensures SaveAsWritten(NewDocument(dto), draws).None?
  {
  }

  /** `save` of a new document with the id generated before validation, as
      the hook evidently intends. */
  function SaveIntended(doc: Meeting, draws: seq<nat>): Option<Meeting>
    requires MeetingModel.ValidDraws(draws)
  {
    var withId := doc.(meetingId := MeetingModel.PreSaveMeetingId(true, doc.meetingId, draws));
    if MissingRequired(withId) != {} then None else Some(withId)
  }

  /** With the id generated first, a new document is accepted exactly when it
      has a title and a host, and it carries the generated id. */
  lemma SaveIntendedAccepts(dto: CreateMeetingDto, draws: seq<nat>)
    requires MeetingModel.ValidDraws(draws)
    ensures SaveIntended(NewDocument(dto), draws).Some? <==> dto.title != "" && dto.hostId != ""
    ensures SaveIntended(NewDocument(dto), draws).Some? ==>
      SaveIntended(NewDocument(dto), draws).value == NewDocument(dto).(meetingId := MeetingModel.GenerateMeetingId(draws))
  {
    var id := MeetingModel.GenerateMeetingId(draws);
    assert |id| == 14;
    assert "meetingId" !in MissingRequired(NewDocument(dto).(meetingId := id));
  }

  /** The key a document sorts under in `sort({ startedAt: -1 })`; a missing
      `startedAt` sorts below every date. */
  function StartKey(m: Meeting): nat {
    if m.startedAt.Some? then m.startedAt.value + 1 else 0
  }

  predicate SortedByStartDesc(r: seq<Meeting>) {
    forall i, j :: 0 <= i < j < |r| ==> StartKey(r[j]) <= StartKey(r[i])
  }

  /** Where `m` goes in a list sorted by descending start: after every entry
      that does not start earlier. */
  function InsertPos(r: seq<Meeting>, m: Meeting): (k: nat)
    ensures k <= |r|
    ensures forall i :: 0 <= i < k ==> StartKey(m) <= StartKey(r[i])
    ensures SortedByStartDesc(r) ==> forall i :: k <= i < |r| ==> StartKey(r[i]) < StartKey(m)
  {
    if |r| == 0 || StartKey(r[0]) < StartKey(m) then 0 else InsertPos(r[1..], m) + 1
  }

  predicate Distinct(r: seq<Meeting>) {
    forall i, j :: 0 <= i < j < |r| ==> r[i] != r[j]
  }

  /** Splicing `m` in at position `k`. */
  function Splice(r: seq<Meeting>, k: nat, m: Meeting): (t: seq<Meeting>)
    requires k <= |r|
    ensures |t| == |r| + 1
    ensures forall i :: 0 <= i < |t| ==> t[i] == if i < k then r[i] else if i == k then m else r[i - 1]
  {
    r[..k] + [m] + r[k..]
  }

  lemma SpliceSorted(r: seq<Meeting>, m: Meeting)
    requires SortedByStartDesc(r)
    ensures SortedByStartDesc(Splice(r, InsertPos(r, m), m))
  {
    var k := InsertPos(r, m);
    var t := Splice(r, k, m);
    forall i, j | 0 <= i < j < |t|
      ensures StartKey(t[j]) <= StartKey(t[i])
    {
      if j < k {
        assert t[i] == r[i] && t[j] == r[j];
      } else if i > k {
        assert t[i] == r[i - 1] && t[j] == r[j - 1];
      } else if i == k {
        assert t[j] == r[j - 1];
      } else if j == k {
        assert t[i] == r[i];
      } else {
        assert t[i] == r[i] && t[j] == r[j - 1];
      }
    }
  }

  lemma SpliceMembers(r: seq<Meeting>, k: nat, m: Meeting)
    requires k <= |r|
    ensures forall x :: x in Splice(r, k, m) <==> x in r || x == m
  {
    var t := Splice(r, k, m);
    forall x | x in r
      ensures x in t
    {
      var i :| 0 <= i < |r| && r[i] == x;
      assert t[if i < k then i else i + 1] == x;
    }
    assert t[k] == m;
  }

  lemma SpliceDistinct(r: seq<Meeting>, k: nat, m: Meeting)
    requires k <= |r| && Distinct(r) && m !in r
    ensures Distinct(Splice(r, k, m))
  {
    var t := Splice(r, k, m);
    forall i, j | 0 <= i < j < |t|
      ensures t[i] != t[j]
    {
      if i != k && j != k {
        assert t[i] == r[if i < k then i else i - 1];
        assert t[j] == r[if j < k then j else j - 1];
      } else if i == k {
        assert t[j] == r[j - 1];
      } else {
        assert t[i] == r[i];
      }
    }
  }

  /** Inserts `m` into a list sorted by descending start, keeping it sorted. */
  function InsertSorted(r: seq<Meeting>, m: Meeting): (t: seq<Meeting>)
    requires SortedByStartDesc(r)
    ensures SortedByStartDesc(t)
    ensures forall x :: x in t <==> x in r || x == m
    ensures Distinct(r) && m !in r ==> Distinct(t)
  {
    var k := InsertPos(r, m);
    SpliceSorted(r, m);
    SpliceMembers(r, k, m);
    if Distinct(r) && m !in r then SpliceDistinct(r, k, m); Splice(r, k, m)
    else Splice(r, k, m)
  }

  ghost predicate ValidStore(s: Store) {
    forall id :: id in s ==> s[id].meetingId == id
  }

  /** The meeting repository: the store's documents, updated in place. */
  class MeetingRepository {
    var meetings: Store

    ghost predicate Valid()
      reads this
    {
      ValidStore(meetings)
    }

    constructor ()
      ensures Valid() && meetings == map[]
    {
      meetings := map[];
    }

    /** `create`: the new document gets its generated id, is refused when a
        required path is empty, and is refused by the unique index when that
        id is already taken. */
    method Create(dto: CreateMeetingDto, draws: seq<nat>) returns (r: Option<Meeting>)
      requires Valid() && MeetingModel.ValidDraws(draws)
      modifies this
      ensures Valid()
      ensures var id := MeetingModel.GenerateMeetingId(draws);
        var doc := NewDocument(dto).(meetingId := id);
        if dto.title == "" || dto.hostId == "" || id in old(meetings) then r.None? && meetings == old(meetings)
        else r == Some(doc) && meetings == old(meetings)[id := doc]
    {
      SaveIntendedAccepts(dto, draws);
      var saved := SaveIntended(NewDocument(dto), draws);
      if saved.None? || saved.value.meetingId in meetings {
        r := None;
      } else {
        meetings := meetings[saved.value.meetingId := saved.value];
        r := saved;
      }
    }

    /** `findById`. */
    method FindById(meetingId: string) returns (r: Option<Meeting>)
      requires Valid()
      ensures r.Some? <==> meetingId in meetings
      ensures r.Some? ==> r.value == meetings[meetingId] && r.value.meetingId == meetingId
    {
      if meetingId in meetings {
        r := Some(meetings[meetingId]);
      } else {
        r := None;
      }
    }

    /** `updateStatus`; `None` and no change when the meeting does not exist. */
    method UpdateStatus(meetingId: string, status: MeetingStatus, now: Time) returns (r: Option<Meeting>)
      requires Valid()
      modifies this
      ensures Valid()
      ensures meetingId !in old(meetings) ==> r.None? && meetings == old(meetings)
      ensures meetingId in old(meetings) ==>
        var m := WithStatus(old(meetings)[meetingId], status, now);
        r == Some(m) && meetings == old(meetings)[meetingId := m]
    {
      if meetingId in meetings {
        var m := WithStatus(meetings[meetingId], status, now);
        meetings := meetings[meetingId := m];
        r := Some(m);
      } else {
        r := None;
      }
    }

    /** `addParticipant`: `$push` onto the roster. */
    method AddParticipant(meetingId: string, p: Participant) returns (r: Option<Meeting>)
      requires Valid()
      modifies this
      ensures Valid()
      ensures meetingId !in old(meetings) ==> r.None? && meetings == old(meetings)
      ensures meetingId in old(meetings) ==>
        var old_m := old(meetings)[meetingId];
        var m := old_m.(participants := old_m.participants + [p]);
        r == Some(m) && meetings == old(meetings)[meetingId := m]
    {
      if meetingId in meetings {
        var m := meetings[meetingId];
        m := m.(participants := m.participants + [p]);
        meetings := meetings[meetingId := m];
        r := Some(m);
      } else {
        r := None;
      }
    }

    /** `updateParticipant`: the positional `$set` of the supplied keys. */
    method UpdateParticipant(meetingId: string, userId: string, patch: ParticipantPatch)
      returns (r: Option<Meeting>)
      requires Valid()
      modifies this
      ensures Valid()
      ensures var found := if meetingId in old(meetings)
                           then PatchParticipant(old(meetings)[meetingId], userId, patch) else None;
        r == found
        && meetings == if found.Some? then old(meetings)[meetingId := found.value] else old(meetings)
    {
      r := None;
      if meetingId in meetings {
        r := PatchParticipant(meetings[meetingId], userId, patch);
        if r.Some? {
          meetings := meetings[meetingId := r.value];
        }
      }
    }

    /** `removeParticipant`: the first matching entry becomes `left`, stamped `leftAt`. */
    method RemoveParticipant(meetingId: string, userId: string, now: Time) returns (r: Option<Meeting>)
      requires Valid()
      modifies this
      ensures Valid()
      ensures var found := if meetingId in old(meetings)
                           then PatchParticipant(old(meetings)[meetingId], userId, LeftPatch(now)) else None;
        r == found
        && meetings == if found.Some? then old(meetings)[meetingId := found.value] else old(meetings)
    {
      r := UpdateParticipant(meetingId, userId, LeftPatch(now));
    }

    /** `addChatMessage`: `$push` onto the chat log. */
    method AddChatMessage(meetingId: string, msg: ChatMessage) returns (r: Option<Meeting>)
      requires Valid()
      modifies this
      ensures Valid()
      ensures meetingId !in old(meetings) ==> r.None? && meetings == old(meetings)
      ensures meetingId in old(meetings) ==>
        var old_m := old(meetings)[meetingId];
        var m := old_m.(chatMessages := old_m.chatMessages + [msg]);
        r == Some(m) && meetings == old(meetings)[meetingId := m]
    {
      if meetingId in meetings {
        var m := meetings[meetingId];
        m := m.(chatMessages := m.chatMessages + [msg]);
        meetings := meetings[meetingId := m];
        r := Some(m);
      } else {
        r := None;
      }
    }

    /** `toggleRecording`: sets `isRecording` and nothing else. */
    method ToggleRecording(meetingId: string, isRecording: bool) returns (r: Option<Meeting>)
      requires Valid()
      modifies this
      ensures Valid()
      ensures meetingId !in old(meetings) ==> r.None? && meetings == old(meetings)
      ensures meetingId in old(meetings) ==>
        var m := old(meetings)[meetingId].(isRecording := isRecording);
        r == Some(m) && meetings == old(meetings)[meetingId := m]
    {
      if meetingId in meetings {
        var m := meetings[meetingId].(isRecording := isRecording);
        meetings := meetings[meetingId := m];
        r := Some(m);
      } else {
        r := None;
      }
    }

    /** `getActiveMeetings`: every active meeting exactly once, latest start first. */
    method GetActiveMeetings() returns (r: seq<Meeting>)
      requires Valid()
      ensures forall m :: m in r ==> m.meetingId in meetings && meetings[m.meetingId] == m
      ensures forall m :: m in r ==> m.status == Active
      ensures forall id :: id in meetings && meetings[id].status == Active ==> meetings[id] in r
      ensures forall i, j :: 0 <= i < j < |r| ==> r[i].meetingId != r[j].meetingId
      ensures SortedByStartDesc(r)
    {
      r := [];
      var todo := meetings.Keys;
      while todo != {}
        invariant todo <= meetings.Keys
        invariant forall m :: m in r ==> m.meetingId in meetings && m.meetingId !in todo && meetings[m.meetingId] == m
        invariant forall m :: m in r ==> m.status == Active
        invariant forall id :: id in meetings && id !in todo && meetings[id].status == Active ==> meetings[id] in r
        invariant Distinct(r)
        invariant SortedByStartDesc(r)
        decreases todo
      {
        var id :| id in todo;
        var m := meetings[id];
        if m.status == Active {
          r := InsertSorted(r, m);
        }
        todo := todo - {id};
      }
      forall i, j | 0 <= i < j < |r|
        ensures r[i].meetingId != r[j].meetingId
      {
        assert r[i] in r && r[j] in r;
      }
    }

    /** `delete`: true iff a meeting with this id existed; afterwards none does. */
    method Delete(meetingId: string) returns (existed: bool)
      requires Valid()
      modifies this
      ensures Valid()
      ensures existed <==> meetingId in old(meetings)
      ensures meetings == old(meetings) - {meetingId}
    {
      existed := meetingId in meetings;
      meetings := meetings - {meetingId};
    }
  }
}
