/** The meeting schema: generated meeting ids, the pre-save hook that assigns
    them, and the defaults the schema fills in for keys a document omits. */
module MeetingModel {
  import opened MeetingTypes

  const Letters := "abcdefghijklmnopqrstuvwxyz"
  const Segments := 3
  const SegmentLength := 4
  /** Number of random letter draws an id needs. */
  const DrawCount := Segments * SegmentLength

  /** Draws of `Math.floor(Math.random() * 26)`, one per letter of the id. */
  predicate ValidDraws(draws: seq<nat>) {
    |draws| == DrawCount && forall i :: 0 <= i < |draws| ==> draws[i] < |Letters|
  }

  predicate IsLetter(c: char) {
    'a' <= c <= 'z'
  }

  /** Concatenates `parts`, putting `sep` between neighbours. */
  function JoinWith(parts: seq<string>, sep: char): string
    decreases |parts|
  {
    if |parts| == 0 then ""
    else if |parts| == 1 then parts[0]
    else parts[0] + [sep] + JoinWith(parts[1..], sep)
  }

  lemma JoinWithThree(a: string, b: string, c: string, sep: char)
    ensures JoinWith([a, b, c], sep) == a + [sep] + b + [sep] + c
  {
    assert [a, b, c][1..] == [b, c];
    assert [b, c][1..] == [c];
    assert JoinWith([c], sep) == c;
    assert JoinWith([b, c], sep) == b + [sep] + c;
    assert JoinWith([a, b, c], sep) == a + [sep] + (b + [sep] + c);
  }

  /** Index of letter `j` of segment `s` among the draws. */
  function DrawPos(s: nat, j: nat): nat {
    4 * s + j
  }

  /** Index of letter `j` of segment `s` in the id (each segment is followed by a '-'). */
  function IdPos(s: nat, j: nat): nat {
    5 * s + j
  }

  /** Segment `s` of the id: `SegmentLength` letters picked by the draws. */
  function Segment(draws: seq<nat>, s: nat): (r: string)
    requires ValidDraws(draws) && s < Segments
    ensures |r| == SegmentLength
    ensures forall j :: 0 <= j < SegmentLength ==> r[j] == Letters[draws[DrawPos(s, j)]]
    ensures forall j :: 0 <= j < SegmentLength ==> IsLetter(r[j])
  {
    seq(SegmentLength, j requires 0 <= j < SegmentLength => Letters[draws[DrawPos(s, j)]])
  }

  /** `generateMeetingId`: three four-letter segments joined by '-'. */
  function GenerateMeetingId(draws: seq<nat>): (id: string)
    requires ValidDraws(draws)
    ensures |id| == 14
    ensures id[4] == '-' && id[9] == '-'
    ensures forall i :: 0 <= i < |id| && i != 4 && i != 9 ==> IsLetter(id[i])
    ensures forall s, j :: 0 <= s < Segments && 0 <= j < SegmentLength ==>
      id[IdPos(s, j)] == Letters[draws[DrawPos(s, j)]]
  {
    var parts := seq(Segments, s requires 0 <= s < Segments => Segment(draws, s));
    var a, b, c := Segment(draws, 0), Segment(draws, 1), Segment(draws, 2);
    assert parts == [a, b, c];
    JoinWithThree(a, b, c, '-');
    assert JoinWith(parts, '-') == a + "-" + b + "-" + c;
    JoinWith(parts, '-')
  }

  /** Draw `k` picks the `k`-th letter of the alphabet. */
  lemma LetterCode(k: nat)
    requires k < |Letters|
    ensures Letters[k] as int == 'a' as int + k
  {
  }

  /** The draw that picks letter `c`. */
  function LetterIndex(c: char): (k: nat)
    requires IsLetter(c)
    ensures k < |Letters| && Letters[k] == c
  {
    c as int - 'a' as int
  }

  /** The draws that pick the letters of one segment. */
  function SegmentDraws(seg: string): (r: seq<nat>)
    requires forall j :: 0 <= j < |seg| ==> IsLetter(seg[j])
    ensures |r| == |seg|
    ensures forall j :: 0 <= j < |seg| ==> r[j] < |Letters| && Letters[r[j]] == seg[j]
  {
    seq(|seg|, j requires 0 <= j < |seg| => LetterIndex(seg[j]))
  }

  /** The shape of a generated id: 14 characters, '-' at 4 and 9, letters elsewhere. */
  predicate WellFormedId(id: string) {
    |id| == 14 && id[4] == '-' && id[9] == '-'
    && forall i :: 0 <= i < |id| && i != 4 && i != 9 ==> IsLetter(id[i])
  }

  /** Reads the draws back from a well-formed id, or `None` for any other string. */
  function ParseMeetingId(id: string): (r: Option<seq<nat>>)
    ensures r.Some? <==> WellFormedId(id)
    ensures r.Some? ==> ValidDraws(r.value)
  {
    if WellFormedId(id)
    then Some(SegmentDraws(id[..4]) + SegmentDraws(id[5..9]) + SegmentDraws(id[10..]))
    else None
  }

  /** Parsing a generated id gives back exactly the draws that made it. */
  lemma ParseGenerated(draws: seq<nat>)
    requires ValidDraws(draws)
    ensures ParseMeetingId(GenerateMeetingId(draws)) == Some(draws)
  {
    var id := GenerateMeetingId(draws);
    var a, b, c := id[..4], id[5..9], id[10..];
    var p := SegmentDraws(a) + SegmentDraws(b) + SegmentDraws(c);
    assert |p| == |draws|;
    forall k | 0 <= k < |draws|
      ensures p[k] == draws[k]
    {
      var s := if k < 4 then 0 else if k < 8 then 1 else 2;
      var j := k - 4 * s;
      var seg := if s == 0 then a else if s == 1 then b else c;
      assert DrawPos(s, j) == k;
      assert seg[j] == id[IdPos(s, j)] == Letters[draws[k]];
      assert p[k] == SegmentDraws(seg)[j];
      LetterCode(draws[k]);
    }
    assert p == draws;
  }

  /** A string that parses is the id generated from its draws. */
  lemma GenerateParsed(id: string)
    requires ParseMeetingId(id).Some?
    ensures GenerateMeetingId(ParseMeetingId(id).value) == id
  {
    var draws := ParseMeetingId(id).value;
    var g := GenerateMeetingId(draws);
    forall i | 0 <= i < 14
      ensures g[i] == id[i]
    {
      if i != 4 && i != 9 {
        var s := if i < 4 then 0 else if i < 9 then 1 else 2;
        var j := i - 5 * s;
        assert IdPos(s, j) == i;
        assert g[IdPos(s, j)] == Letters[draws[DrawPos(s, j)]];
      }
    }
  }

  /** Different draws never give the same id. */
  lemma GenerateInjective(d1: seq<nat>, d2: seq<nat>)
    requires ValidDraws(d1) && ValidDraws(d2)
    requires GenerateMeetingId(d1) == GenerateMeetingId(d2)
    ensures d1 == d2
  {
    ParseGenerated(d1);
    ParseGenerated(d2);
  }

  /** The pre-save hook: a new document without an id (JavaScript-falsy
      `meetingId`, here "") is given a generated one; any other keeps its id. */
  function PreSaveMeetingId(isNew: bool, meetingId: string, draws: seq<nat>): (id: string)
    requires ValidDraws(draws)
    ensures isNew && meetingId == "" ==> id == GenerateMeetingId(draws)
    ensures meetingId != "" ==> id == meetingId
    ensures !isNew ==> id == meetingId
  {
    if isNew && meetingId == "" then GenerateMeetingId(draws) else meetingId
  }

  // Schema defaults for keys a document omits.

  const DefaultRole := Attendee
  const DefaultParticipantStatus := Waiting
  const DefaultMeetingStatus := Scheduled
  const DefaultIsRecording := false

  /** Settings defaults; the repository's create uses the same literal. */
  const DefaultSettings := MeetingSettings(
    allowParticipantVideo := true,
    allowParticipantAudio := true,
    allowChat := true,
    allowScreenShare := true,
    waitingRoom := false,
    recordMeeting := false,
    maxParticipants := 100,
    requirePassword := false,
    password := None)

  /** Overrides `base` key by key with the keys present in `patch`. */
  function MergeSettings(base: MeetingSettings, patch: SettingsPatch): (s: MeetingSettings)
    ensures s.allowParticipantVideo == patch.allowParticipantVideo.GetOr(base.allowParticipantVideo)
    ensures s.allowParticipantAudio == patch.allowParticipantAudio.GetOr(base.allowParticipantAudio)
    ensures s.allowChat == patch.allowChat.GetOr(base.allowChat)
    ensures s.allowScreenShare == patch.allowScreenShare.GetOr(base.allowScreenShare)
    ensures s.waitingRoom == patch.waitingRoom.GetOr(base.waitingRoom)
    ensures s.recordMeeting == patch.recordMeeting.GetOr(base.recordMeeting)
    ensures s.maxParticipants == patch.maxParticipants.GetOr(base.maxParticipants)
    ensures s.requirePassword == patch.requirePassword.GetOr(base.requirePassword)
    ensures patch.password.Some? ==> s.password == patch.password
    ensures patch.password.None? ==> s.password == base.password
  {
    MeetingSettings(
      patch.allowParticipantVideo.GetOr(base.allowParticipantVideo),
      patch.allowParticipantAudio.GetOr(base.allowParticipantAudio),
      patch.allowChat.GetOr(base.allowChat),
      patch.allowScreenShare.GetOr(base.allowScreenShare),
      patch.waitingRoom.GetOr(base.waitingRoom),
      patch.recordMeeting.GetOr(base.recordMeeting),
      patch.maxParticipants.GetOr(base.maxParticipants),
      patch.requirePassword.GetOr(base.requirePassword),
      if patch.password.Some? then patch.password else base.password)
  }

  /** A participant document cast through the participant schema: `userId` and
      `name` are required (absent or empty fails), every other omitted key takes
      its default and `joinedAt` defaults to the save time `now`. */
  function CastParticipant(doc: ParticipantPatch, now: Time): (r: Option<Participant>)
    ensures r.None? <==> !Truthy(doc.userId) || !Truthy(doc.name)
    ensures r.Some? ==> r.value.userId == doc.userId.value && r.value.name == doc.name.value
    ensures r.Some? ==> r.value.role == doc.role.GetOr(DefaultRole)
    ensures r.Some? ==> r.value.status == doc.status.GetOr(DefaultParticipantStatus)
    ensures r.Some? ==> r.value.joinedAt == doc.joinedAt.GetOr(now)
    ensures r.Some? ==>
      && r.value.isMuted == doc.isMuted.GetOr(false)
      && r.value.isVideoOff == doc.isVideoOff.GetOr(false)
      && r.value.isHandRaised == doc.isHandRaised.GetOr(false)
    ensures r.Some? ==>
      && r.value.email == doc.email && r.value.leftAt == doc.leftAt
      && r.value.socketId == doc.socketId && r.value.peerId == doc.peerId
  {
    if !Truthy(doc.userId) || !Truthy(doc.name) then None
    else Some(Participant(
      doc.userId.value, doc.name.value, doc.email,
      doc.role.GetOr(DefaultRole), doc.status.GetOr(DefaultParticipantStatus),
      doc.joinedAt.GetOr(now), doc.leftAt,
      doc.isMuted.GetOr(false), doc.isVideoOff.GetOr(false), doc.isHandRaised.GetOr(false),
      doc.socketId, doc.peerId))
  }

  /** With only the required keys given, a participant is a waiting attendee
      with every media flag off. */
  lemma BareParticipantDefaults(userId: string, name: string, now: Time)
    requires userId != "" && name != ""
    ensures var r := CastParticipant(EmptyPatch.(userId := Some(userId), name := Some(name)), now);
      r.Some? && r.value.role == Attendee && r.value.status == Waiting
      && !r.value.isMuted && !r.value.isVideoOff && !r.value.isHandRaised
      && r.value.joinedAt == now
  {
  }
}
