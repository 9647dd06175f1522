/**
 * The records the Flask backend keeps in its module-level dictionaries, and
 * the pure decisions its handlers make on them: which doctors a filter keeps,
 * which user an id designates, how a video room changes on join, accept,
 * reject, end and expiry, and how call history is ordered.
 */
module BackendModel {
  import opened Common
  import opened Text
  import opened Seqs

  const PlaceholderAvatar: string := "/placeholder.svg?height=40&width=40"
  const DefaultSpecialty: string := "General Medicine"
  /** Rooms open for longer than this many seconds are ended by the cleanup job. */
  const StaleThreshold: int := 30 * 60

  /**
   * A stored password. The salted hash of werkzeug is not modelled: the
   * credential remembers what it was made from, and checking compares with it.
   */
  datatype Credential = Hashed(secret: string)

  predicate CheckPassword(c: Credential, password: string) {
    c.secret == password
  }

  /** An entry of `users`; keys that some entries lack are optional. */
  datatype User = User(
    id: string,
    name: string,
    email: string,
    password: Credential,
    role: string,
    avatar: Option<string>,
    createdAt: Option<nat>,
    status: Option<string>,
    specialty: Option<string>,
    availability: Option<bool>)

  /** `user.get('status', 'offline')` */
  function StatusOf(u: User): string { u.status.GetOr("offline") }

  /** `user.get('availability', False)` */
  function IsAvailable(u: User): bool { u.availability.GetOr(false) }

  /** `user.get('avatar', placeholder)` */
  function AvatarOf(u: User): string { u.avatar.GetOr(PlaceholderAvatar) }

  /** Python `str(b).lower()` for a bool. */
  function BoolText(b: bool): string { if b then "true" else "false" }

  datatype CallStatus = Pending | Connected | Accepted | Rejected

  /** An entry of `video_rooms`. Rooms made by `call_specific_doctor` carry no call status. */
  datatype VideoRoom = VideoRoom(
    id: string,
    creator: string,
    createdAt: nat,
    participants: seq<string>,
    active: bool,
    patientId: string,
    doctorId: string,
    endedBy: Option<string>,
    endTime: Option<nat>,
    callStatus: Option<CallStatus>,
    endReason: Option<string>,
    followUp: Option<string>,
    notes: Option<string>)

  /**
   * What every handler keeps true of a room: the creator and one counterpart
   * are its two participants, they are its patient and its doctor, a room is
   * active exactly while it has no end time, an active room has not been ended
   * by anyone, and a rejected call is never active.
   */
  predicate WellFormedRoom(r: VideoRoom) {
    && |r.participants| == 2
    && r.participants[0] == r.creator
    && {r.patientId, r.doctorId} == {r.participants[0], r.participants[1]}
    && (r.active <==> r.endTime.None?)
    && (r.active ==> r.endedBy.None? && r.endReason.None?)
    && (r.callStatus == Some(Rejected) ==> !r.active)
  }

  /** An entry of `chat_rooms`. */
  datatype ChatRoom = ChatRoom(id: string, name: string, participants: seq<string>)

  /** An entry of a `chat_messages` list. */
  datatype Message = Message(
    id: string,
    roomId: string,
    senderId: string,
    senderName: string,
    content: string,
    timestamp: nat,
    read: bool)

  // ------------------------------------------------------------------ lookups

  /** `u['id'] == id and u['role'] == role`, the role test left out when `role` is None. */
  predicate HasIdRole(u: User, id: string, role: Option<string>) {
    u.id == id && (role.None? || u.role == role.value)
  }

  /** The `for u in users.values(): if ...: break` search: the position of the first match. */
  function FirstWithId(us: seq<User>, id: string, role: Option<string>): (r: Option<nat>)
    ensures r.Some? ==> r.value < |us| && HasIdRole(us[r.value], id, role)
    ensures r.Some? ==> forall j :: 0 <= j < r.value ==> !HasIdRole(us[j], id, role)
    ensures r.None? ==> forall j :: 0 <= j < |us| ==> !HasIdRole(us[j], id, role)
  {
    if us == [] then None
    else if HasIdRole(us[0], id, role) then Some(0)
    else
      match FirstWithId(us[1..], id, role)
      case None => None
      case Some(k) => Some(k + 1)
  }

  /** `next((p for p in participants if p != me), None)` */
  function OtherParticipant(participants: seq<string>, me: string): (r: Option<string>)
    ensures r.Some? ==> r.value in participants && r.value != me
    ensures r.None? <==> forall p :: p in participants ==> p == me
  {
    if participants == [] then None
    else if participants[0] != me then Some(participants[0])
    else
      assert forall p :: p in participants ==> p == participants[0] || p in participants[1..];
      OtherParticipant(participants[1..], me)
  }

  /** `{'id', 'name', 'role', 'specialty' (doctors only)}`, as `get_video_rooms` lists the other participant. */
  datatype ParticipantInfo = ParticipantInfo(id: string, name: string, role: string, specialty: Option<string>)

  function InfoOf(u: User): ParticipantInfo {
    ParticipantInfo(u.id, u.name, u.role, if u.role == "doctor" then u.specialty else None)
  }

  /** `{'id', 'name', 'role'}`, as the chat-room listing and the call history give the other participant. */
  datatype Brief = Brief(id: string, name: string, role: string)

  function BriefOf(u: User): Brief { Brief(u.id, u.name, u.role) }

  /** `{'id', 'name', 'role', 'avatar', 'specialty' (doctors only)}`, as `join_video_room` lists participants. */
  datatype Participant = Participant(id: string, name: string, role: string, avatar: string, specialty: Option<string>)

  function ParticipantOf(u: User): Participant {
    Participant(u.id, u.name, u.role, AvatarOf(u), if u.role == "doctor" then u.specialty else None)
  }

  /** The first user whose id is `id`, projected by `f`; None when there is no id or no such user. */
  function ProjectById<T>(us: seq<User>, id: Option<string>, f: User -> T): (r: Option<T>)
    ensures r.Some? ==> id.Some? && exists u :: u in us && u.id == id.value && r.value == f(u)
    ensures r.None? ==> id.None? || forall u :: u in us ==> u.id != id.value
  {
    if id.None? then None
    else
      match FirstWithId(us, id.value, None)
      case None => None
      case Some(k) => Some(f(us[k]))
  }

  /** The participants of a room that are known users, in participant order. */
  function KnownParticipants(us: seq<User>, ids: seq<string>): (r: seq<Participant>)
    ensures |r| == |Filter(ids, KnownId(us))|
    ensures forall i :: 0 <= i < |r| ==> r[i].id == Filter(ids, KnownId(us))[i]
    ensures forall p :: p in r ==> exists u :: u in us && u.id in ids && p == ParticipantOf(u)
  {
    if ids == [] then []
    else
      var rest := KnownParticipants(us, ids[1..]);
      assert Filter(ids, KnownId(us))
          == (if KnownId(us)(ids[0]) then [ids[0]] else []) + Filter(ids[1..], KnownId(us));
      match ProjectById(us, Some(ids[0]), ParticipantOf)
      case None =>
        assert !KnownId(us)(ids[0]);
        rest
      case Some(p) =>
        assert KnownId(us)(ids[0]) && p.id == ids[0];
        [p] + rest
  }

  /** Some user has this id. */
  function KnownId(us: seq<User>): string -> bool {
    (id: string) => exists u :: u in us && u.id == id
  }

  // ------------------------------------------------------------------ doctor listings

  /** The entry a doctor listing returns for one doctor. */
  datatype DoctorView = DoctorView(
    id: string,
    name: string,
    email: string,
    avatar: string,
    specialty: Option<string>,
    status: string,
    availability: bool,
    existingChatRoom: Option<string>)

  /** Both users take part in the chat room. */
  predicate Shares(c: ChatRoom, me: string, other: string) {
    me in c.participants && other in c.participants
  }

  /** The position of the first chat room (in `chat_rooms` order) that both users take part in. */
  function FirstShared(rooms: seq<ChatRoom>, me: string, other: string): (r: Option<nat>)
    ensures r.Some? ==> r.value < |rooms| && Shares(rooms[r.value], me, other)
    ensures r.Some? ==> forall j :: 0 <= j < r.value ==> !Shares(rooms[j], me, other)
    ensures r.None? ==> forall j :: 0 <= j < |rooms| ==> !Shares(rooms[j], me, other)
  {
    if rooms == [] then None
    else if Shares(rooms[0], me, other) then Some(0)
    else
      match FirstShared(rooms[1..], me, other)
      case None => None
      case Some(k) => Some(k + 1)
  }

  /** The id of the first chat room that both users take part in (the loop's `break`). */
  function SharedChatRoom(rooms: seq<ChatRoom>, me: string, other: string): (r: Option<string>)
    ensures r.Some? ==> exists i :: 0 <= i < |rooms| && rooms[i].id == r.value && Shares(rooms[i], me, other)
                                   && forall j :: 0 <= j < i ==> !Shares(rooms[j], me, other)
    ensures r.None? ==> forall c :: c in rooms ==> !Shares(c, me, other)
  {
    match FirstShared(rooms, me, other)
    case None => None
    case Some(i) => Some(rooms[i].id)
  }

  /**
   * One doctor's listing entry. Every doctor record holds a `specialty` key, so
   * `user.get('specialty', 'General Medicine')` returns the stored value, JSON
   * `null` (None) included; the fallback never applies.
   */
  function ViewOf(u: User, rooms: seq<ChatRoom>, me: string): (v: DoctorView)
    ensures v.id == u.id && v.specialty == u.specialty
    ensures v.existingChatRoom.Some? ==>
      exists c :: c in rooms && c.id == v.existingChatRoom.value && Shares(c, me, u.id)
    ensures v.existingChatRoom.None? ==> forall c :: c in rooms ==> !Shares(c, me, u.id)
  {
    DoctorView(u.id, u.name, u.email, AvatarOf(u), u.specialty,
               StatusOf(u), IsAvailable(u), SharedChatRoom(rooms, me, u.id))
  }

  /** The filter of `get_doctors`: a doctor, and every given (truthy) filter matches. */
  predicate ListingMatch(u: User, specialty: Option<string>, name: Option<string>, availability: Option<string>) {
    && u.role == "doctor"
    && (Truthy(specialty) ==> u.specialty.GetOr("") == specialty.value)
    && (Truthy(name) ==> Contains(Lower(u.name), Lower(name.value)))
    && (Truthy(availability) ==> BoolText(IsAvailable(u)) == Lower(availability.value))
  }

  /** The filter of `search_doctors`; its query defaults to "" and is lowered first. */
  predicate SearchMatch(u: User, query: Option<string>, specialty: Option<string>, availability: Option<string>) {
    var q := Lower(query.GetOr(""));
    && u.role == "doctor"
    && (q != "" ==> Contains(Lower(u.name), q))
    && (Truthy(specialty) ==> u.specialty == Some(specialty.value))
    && (Truthy(availability) ==> BoolText(IsAvailable(u)) == Lower(availability.value))
  }

  /**
   * The two listing endpoints apply the same filter when the search query is
   * the name filter, although they test the specialty differently.
   */
  lemma SearchAgreesWithListing(u: User, name: Option<string>, specialty: Option<string>, availability: Option<string>)
    ensures SearchMatch(u, name, specialty, availability) <==> ListingMatch(u, specialty, name, availability)
  {
    var q := Lower(name.GetOr(""));
    assert q == "" <==> !Truthy(name) by {
      if Truthy(name) { assert |q| == |name.value| > 0; }
    }
  }

  /** With `availability=true` (in any letter case) only available doctors are listed. */
  lemma ListingAvailabilityTrue(u: User, specialty: Option<string>, name: Option<string>, availability: Option<string>)
    requires availability.Some? && Lower(availability.value) == "true"
    requires ListingMatch(u, specialty, name, availability)
    ensures u.role == "doctor" && IsAvailable(u)
  {
    assert Truthy(availability);
  }

  /** `available_doctors` in `create_video_room`: available and online doctors. */
  predicate AvailableOnlineDoctor(u: User) {
    u.role == "doctor" && IsAvailable(u) && StatusOf(u) == "online"
  }

  /** Auto-assignment picks the first available, online doctor in `users` order. */
  function AutoAssign(us: seq<User>): (r: Option<nat>)
    ensures r.Some? ==> r.value < |us| && AvailableOnlineDoctor(us[r.value])
    ensures r.Some? ==> forall j :: 0 <= j < r.value ==> !AvailableOnlineDoctor(us[j])
    ensures r.None? <==> forall u :: u in us ==> !AvailableOnlineDoctor(u)
  {
    if us == [] then None
    else if AvailableOnlineDoctor(us[0]) then Some(0)
    else
      match AutoAssign(us[1..])
      case None => None
      case Some(k) => Some(k + 1)
  }

  /** The assigned doctor is the head of the `available_doctors` list comprehension. */
  lemma {:induction false} AutoAssignIsHead(us: seq<User>)
    ensures AutoAssign(us).None? <==> Filter(us, AvailableOnlineDoctor) == []
    ensures AutoAssign(us).Some? ==> Filter(us, AvailableOnlineDoctor)[0] == us[AutoAssign(us).value]
  {
    if us != [] {
      AutoAssignIsHead(us[1..]);
    }
  }

  // ------------------------------------------------------------------ room lifecycle

  /** A room as `create_video_room` and `call_specific_doctor` store it. */
  function NewRoom(id: string, creator: string, counterpart: string, patient: string, doctor: string,
                   now: nat, status: Option<CallStatus>): (r: VideoRoom)
    requires {patient, doctor} == {creator, counterpart}
    requires status != Some(Rejected)
    ensures WellFormedRoom(r) && r.active && r.participants == [creator, counterpart]
  {
    VideoRoom(id, creator, now, [creator, counterpart], true, patient, doctor,
              None, None, status, None, None, None)
  }

  /** `join_video_room` moves a pending call to connected and leaves any other status alone. */
  function JoinedRoom(r: VideoRoom): (r': VideoRoom)
    requires WellFormedRoom(r)
    ensures WellFormedRoom(r')
    ensures r'.active == r.active
    ensures r'.callStatus == (if r.callStatus == Some(Pending) then Some(Connected) else r.callStatus)
    ensures r'.(callStatus := r.callStatus) == r
  {
    if r.callStatus == Some(Pending) then r.(callStatus := Some(Connected)) else r
  }

  /**
   * Joining settles: after one join no call is pending any more, a second
   * join changes nothing, and an accepted call stays accepted when joined.
   */
  lemma JoinSettles(r: VideoRoom)
    requires WellFormedRoom(r)
    ensures JoinedRoom(r).callStatus != Some(Pending)
    ensures JoinedRoom(JoinedRoom(r)) == JoinedRoom(r)
    ensures JoinedRoom(AcceptedRoom(r)) == AcceptedRoom(r)
  {
  }

  /** A room rejected by `user` at time `now`. */
  function RejectedRoom(r: VideoRoom, userId: string, userName: string, now: nat): (r': VideoRoom)
    requires WellFormedRoom(r)
    ensures WellFormedRoom(r') && !r'.active
    ensures r'.endedBy == Some(userId) && r'.endTime == Some(now) && r'.callStatus == Some(Rejected)
    ensures r'.endReason == Some("Call rejected by " + userName)
    ensures r'.(active := r.active, endedBy := r.endedBy, endTime := r.endTime, callStatus := r.callStatus,
                endReason := r.endReason) == r
  {
    r.(active := false, endedBy := Some(userId), endTime := Some(now), callStatus := Some(Rejected),
       endReason := Some("Call rejected by " + userName))
  }

  /** An accepted call: only the call status changes. */
  function AcceptedRoom(r: VideoRoom): (r': VideoRoom)
    requires WellFormedRoom(r)
    ensures WellFormedRoom(r') && r'.active == r.active
    ensures r'.callStatus == Some(Accepted) && r'.(callStatus := r.callStatus) == r
  {
    r.(callStatus := Some(Accepted))
  }

  /**
   * A room ended by a participant; follow-up and notes are stored only when
   * truthy. The reason is None when the request sent it as `null`.
   */
  function EndedRoom(r: VideoRoom, userId: string, reason: Option<string>, followUp: Option<string>,
                     notes: Option<string>, now: nat): (r': VideoRoom)
    requires WellFormedRoom(r)
    ensures WellFormedRoom(r') && !r'.active
    ensures r'.endedBy == Some(userId) && r'.endTime == Some(now) && r'.endReason == reason
    ensures r'.callStatus == r.callStatus
    ensures Truthy(followUp) ==> r'.followUp == followUp
    ensures !Truthy(followUp) ==> r'.followUp == r.followUp
    ensures Truthy(notes) ==> r'.notes == notes
    ensures !Truthy(notes) ==> r'.notes == r.notes
    ensures r'.(active := r.active, endedBy := r.endedBy, endTime := r.endTime, endReason := r.endReason,
                followUp := r.followUp, notes := r.notes) == r
  {
    r.(active := false, endedBy := Some(userId), endTime := Some(now), endReason := reason,
       followUp := if Truthy(followUp) then followUp else r.followUp,
       notes := if Truthy(notes) then notes else r.notes)
  }

  /** An active room whose age exceeds the threshold. */
  predicate IsStale(r: VideoRoom, now: nat) {
    r.active && now - r.createdAt > StaleThreshold
  }

  /** What `cleanup_stale_video_rooms` does to one room. */
  function Expired(r: VideoRoom, now: nat): (r': VideoRoom)
    ensures WellFormedRoom(r) ==> WellFormedRoom(r')
  {
    if IsStale(r, now) then
      r.(active := false, endTime := Some(now), endReason := Some("Call automatically ended due to inactivity"))
    else r
  }

  /** After cleanup no room is stale, and a second cleanup at the same time changes nothing. */
  lemma ExpiredSettles(r: VideoRoom, now: nat)
    requires WellFormedRoom(r)
    ensures !IsStale(Expired(r, now), now)
    ensures Expired(Expired(r, now), now) == Expired(r, now)
  {
  }

  /** Expiry touches exactly the stale rooms. */
  lemma ExpiredIff(r: VideoRoom, now: nat)
    requires WellFormedRoom(r)
    ensures Expired(r, now) != r <==> IsStale(r, now)
    ensures IsStale(r, now) ==> Expired(r, now).endTime == Some(now) && !Expired(r, now).active
  {
  }

  // ------------------------------------------------------------------ listings of rooms

  /** An entry of `/api/video/rooms`. */
  datatype RoomSummary = RoomSummary(id: string, createdAt: nat, other: Option<ParticipantInfo>)

  /** An entry of `/api/video/history`; the float duration in minutes is not modelled. */
  datatype HistoryEntry = HistoryEntry(
    id: string,
    startedAt: nat,
    endedAt: nat,
    other: Option<Brief>,
    followUp: Option<string>,
    notes: Option<string>)

  /** A room belongs in the history of `uid`: a participant, inactive, and with a truthy end time. */
  predicate InHistory(r: VideoRoom, uid: string) {
    uid in r.participants && !r.active && r.endTime.Some? && r.endTime.value != 0
  }

  /** Newest first. */
  predicate SortedByStartDesc(s: seq<HistoryEntry>) {
    forall i, j :: 0 <= i < j < |s| ==> s[i].startedAt >= s[j].startedAt
  }

  /** The number of leading entries that started at or after `x`. */
  function InsertPos(s: seq<HistoryEntry>, x: HistoryEntry): (k: nat)
    ensures k <= |s|
    ensures forall j :: 0 <= j < k ==> s[j].startedAt >= x.startedAt
    ensures k < |s| ==> s[k].startedAt < x.startedAt
  {
    if s == [] || s[0].startedAt < x.startedAt then 0 else 1 + InsertPos(s[1..], x)
  }

  /** Insert `x` after every entry that started at or after `x`'s start, so that equal starts keep their order. */
  function InsertByStart(s: seq<HistoryEntry>, x: HistoryEntry): (r: seq<HistoryEntry>)
    requires SortedByStartDesc(s)
    ensures r == s[..InsertPos(s, x)] + [x] + s[InsertPos(s, x)..]
    ensures SortedByStartDesc(r)
    ensures multiset(r) == multiset(s) + multiset{x}
    ensures forall e :: e in r ==> e in s || e == x
  {
    var k := InsertPos(s, x);
    InsertSplitSorted(s, x, k);
    InsertSplitContents(s, x, k);
    if s == [] then [x]
    else if s[0].startedAt >= x.startedAt then
      var t := InsertByStart(s[1..], x);
      InsertStep(s, x, t, k - 1);
      [s[0]] + t
    else
      [x] + s
  }

  /** The recursive step of the insertion: the head goes in front of the tail's split. */
  lemma InsertStep(s: seq<HistoryEntry>, x: HistoryEntry, t: seq<HistoryEntry>, k: nat)
    requires s != [] && k <= |s| - 1
    requires t == s[1..][..k] + [x] + s[1..][k..]
    ensures [s[0]] + t == s[..k + 1] + [x] + s[k + 1..]
  {
    assert s[..k + 1] == [s[0]] + s[1..][..k];
    assert s[k + 1..] == s[1..][k..];
  }

  /**
   * Putting `x` between the entries that started no earlier and those that
   * started later keeps a newest-first list newest first.
   */
  lemma InsertSplitSorted(s: seq<HistoryEntry>, x: HistoryEntry, k: nat)
    requires SortedByStartDesc(s) && k <= |s|
    requires forall j :: 0 <= j < k ==> s[j].startedAt >= x.startedAt
    requires k < |s| ==> s[k].startedAt < x.startedAt
    ensures SortedByStartDesc(s[..k] + [x] + s[k..])
  {
    var r := s[..k] + [x] + s[k..];
    forall i, j | 0 <= i < j < |r| ensures r[i].startedAt >= r[j].startedAt {
      var a := if i < k then s[i] else if i == k then x else s[i - 1];
      var b := if j < k then s[j] else if j == k then x else s[j - 1];
      assert r[i] == a && r[j] == b;
      if i == k && j > k {
        assert s[k].startedAt >= s[j - 1].startedAt;
      }
    }
  }

  /** The same insertion adds exactly `x`. */
  lemma InsertSplitContents(s: seq<HistoryEntry>, x: HistoryEntry, k: nat)
    requires k <= |s|
    ensures multiset(s[..k] + [x] + s[k..]) == multiset(s) + multiset{x}
    ensures forall e :: e in s[..k] + [x] + s[k..] ==> e in s || e == x
  {
    assert s == s[..k] + s[k..];
    forall e | e in s[..k] + [x] + s[k..] ensures e in s || e == x {
      if e in s[..k] {
      } else if e in s[k..] {
      }
    }
  }

  /**
   * `history.sort(key=started_at, reverse=True)`: Python's sort is stable even
   * when reversed, so entries with the same start keep their listing order.
   */
  function SortByStartDesc(s: seq<HistoryEntry>): (r: seq<HistoryEntry>)
    ensures SortedByStartDesc(r)
    ensures multiset(r) == multiset(s)
    ensures |r| == |s|
  {
    if s == [] then []
    else
      var init := s[..|s| - 1];
      assert s == init + [s[|s| - 1]];
      var r := InsertByStart(SortByStartDesc(init), s[|s| - 1]);
      assert |r| == |multiset(r)|;
      r
  }

  /** The entries that started at second `t`. */
  function StartsAt(t: nat): HistoryEntry -> bool {
    (e: HistoryEntry) => e.startedAt == t
  }

  /** In a newest-first list, nothing from the first entry that started before `t` on started at `t`. */
  lemma LaterStartsDiffer(s: seq<HistoryEntry>, k: nat, t: nat)
    requires SortedByStartDesc(s) && k <= |s|
    requires k < |s| ==> s[k].startedAt < t
    ensures Filter(s[k..], StartsAt(t)) == []
  {
    forall e | e in s[k..] ensures !StartsAt(t)(e) {
      var j :| k <= j < |s| && s[j] == e;
      assert s[k].startedAt >= s[j].startedAt;
    }
    FilterNone(s[k..], StartsAt(t));
  }

  /**
   * The sort is stable: for every start time, the entries that started then
   * come out in the order they went in.
   */
  lemma {:induction false} SortByStartDescStable(s: seq<HistoryEntry>, t: nat)
    ensures Filter(SortByStartDesc(s), StartsAt(t)) == Filter(s, StartsAt(t))
  {
    if s != [] {
      var init, x := s[..|s| - 1], s[|s| - 1];
      assert s == init + [x];
      SortByStartDescStable(init, t);
      var sorted := SortByStartDesc(init);
      var k := InsertPos(sorted, x);
      if x.startedAt == t {
        LaterStartsDiffer(sorted, k, t);
      }
      FilterInsert(sorted, x, k, StartsAt(t));
      FilterAppend(init, [x], StartsAt(t));
    }
  }

  // ------------------------------------------------------------------ registration

  /** The first validation failure of `register`, in the order the handler checks them. */
  function RegistrationError(email: Option<string>, password: Option<string>, name: Option<string>,
                             registered: map<string, User>): Option<string>
  {
    if !Truthy(email) || !Truthy(password) || !Truthy(name) then Some("Missing required fields")
    else if '@' !in email.value || '.' !in email.value then Some("Invalid email format")
    else if |password.value| < 8 then Some("Password must be at least 8 characters")
    else if email.value in registered then Some("Email already registered")
    else None
  }

  /** Registration is accepted exactly when every check passes. */
  lemma RegistrationAccepted(email: Option<string>, password: Option<string>, name: Option<string>,
                             registered: map<string, User>)
    ensures RegistrationError(email, password, name, registered).None? <==>
      && Truthy(email) && Truthy(password) && Truthy(name)
      && '@' in email.value && '.' in email.value
      && |password.value| >= 8
      && email.value !in registered
  {
  }

  /**
   * The record `register` stores; the id is the role, a dash and eight hex
   * digits of a fresh uuid. A doctor's specialty defaults only when the key is
   * missing: one sent as `null` is stored as None.
   */
  function NewAccount(email: string, password: string, name: string, role: string,
                      specialty: Field<string>, uuidHex: string, now: nat): (u: User)
    ensures u.email == email && u.name == name && u.role == role && CheckPassword(u.password, password)
    ensures StatusOf(u) == "online"
    ensures u.role == "doctor" ==> IsAvailable(u)
    ensures u.role == "doctor" && specialty.Absent? ==> u.specialty == Some(DefaultSpecialty)
    ensures u.role == "doctor" && specialty.Null? ==> u.specialty.None?
    ensures u.role == "doctor" && specialty.Present? ==> u.specialty == Some(specialty.value)
    ensures u.role != "doctor" ==> u.specialty.None? && u.availability.None?
    ensures u.id == role + "-" + Take(uuidHex, 8)
  {
    User(role + "-" + Take(uuidHex, 8), name, email, Hashed(password), role, Some(PlaceholderAvatar),
         Some(now), Some("online"),
         if role == "doctor" then specialty.Get(DefaultSpecialty) else None,
         if role == "doctor" then Some(true) else None)
  }

  /** A second registration with the same data is refused, because the email is now taken. */
  lemma RegisterTwiceRefused(email: Option<string>, password: Option<string>, name: Option<string>,
                             registered: map<string, User>, u: User)
    requires RegistrationError(email, password, name, registered).None?
    ensures RegistrationError(email, password, name, registered[email.value := u]) == Some("Email already registered")
  {
  }

  /** The status code and message `login` refuses with, or None when the credentials are accepted. */
  function LoginError(email: Option<string>, password: Option<string>, registered: map<string, User>): Option<(int, string)> {
    if !Truthy(email) || !Truthy(password) then Some((400, "Missing email or password"))
    else if email.value !in registered || !CheckPassword(registered[email.value].password, password.value) then
      Some((401, "Invalid email or password"))
    else None
  }

  /**
   * A doctor registered with a `specialty` key is listed with that value, and
   * one registered with `null` is listed with `null`; only a missing key gives
   * "General Medicine".
   */
  lemma RegisteredDoctorListed(email: string, password: string, name: string, specialty: Field<string>,
                               uuidHex: string, now: nat, rooms: seq<ChatRoom>, me: string)
    ensures var v := ViewOf(NewAccount(email, password, name, "doctor", specialty, uuidHex, now), rooms, me);
      && (specialty.Absent? ==> v.specialty == Some(DefaultSpecialty))
      && (specialty.Null? ==> v.specialty.None?)
      && (specialty.Present? ==> v.specialty == Some(specialty.value))
  {
  }

  /** A freshly registered account can log in with the password it registered with, and with no other. */
  lemma RegisteredCanLogIn(email: Option<string>, password: Option<string>, name: Option<string>,
                           registered: map<string, User>, role: string, specialty: Field<string>,
                           uuidHex: string, now: nat, other: string)
    requires RegistrationError(email, password, name, registered).None?
    ensures var u := NewAccount(email.value, password.value, name.value, role, specialty, uuidHex, now);
      && LoginError(email, password, registered[email.value := u]).None?
      && (other != "" && other != password.value ==>
            LoginError(email, Some(other), registered[email.value := u]) == Some((401, "Invalid email or password")))
  {
  }

  // ------------------------------------------------------------------ room creation

  /** What a room-creation request leads to, before any room id is used. */
  datatype Plan =
    | Deny(code: int, error: string)
    | Open(creator: User, counterpart: User, creatorIsPatient: bool)
    | NoRoleBranch   // the handler falls off its end: neither patient nor doctor

  /** The decision of `create_video_room` for an existing `user`. */
  function CreationPlan(us: seq<User>, user: User, doctorId: Option<string>, patientId: Option<string>): Plan {
    if user.role == "patient" then
      if Truthy(doctorId) then
        match FirstWithId(us, doctorId.value, Some("doctor"))
        case None => Deny(404, "Doctor not found")
        case Some(k) =>
          if !IsAvailable(us[k]) then Deny(400, "Doctor is not available right now")
          else if StatusOf(us[k]) != "online" then Deny(400, "Doctor is currently offline")
          else Open(user, us[k], true)
      else
        match AutoAssign(us)
        case None => Deny(404, "No doctors available at this time")
        case Some(k) => Open(user, us[k], true)
    else if user.role == "doctor" then
      if !Truthy(patientId) then Deny(400, "Patient ID is required")
      else
        match FirstWithId(us, patientId.value, Some("patient"))
        case None => Deny(404, "Patient not found")
        case Some(k) => Open(user, us[k], false)
    else NoRoleBranch
  }

  /**
   * Whom a created room connects: a patient's room goes to a doctor who is
   * available and online, a doctor's room to a patient, both taken from `users`;
   * only other roles fall through.
   */
  lemma CreationPlanSound(us: seq<User>, user: User, doctorId: Option<string>, patientId: Option<string>)
    ensures CreationPlan(us, user, doctorId, patientId).Open? ==>
      var p := CreationPlan(us, user, doctorId, patientId);
      && p.creator == user && p.counterpart in us
      && (p.creatorIsPatient <==> user.role == "patient")
      && (p.creatorIsPatient ==> AvailableOnlineDoctor(p.counterpart))
      && (!p.creatorIsPatient ==> user.role == "doctor" && p.counterpart.role == "patient")
    ensures CreationPlan(us, user, doctorId, patientId).NoRoleBranch? <==> user.role != "patient" && user.role != "doctor"
  {
  }

  /** Without a doctor id a patient gets the head of `available_doctors`, or 404 when it is empty. */
  lemma CreationAutoAssigns(us: seq<User>, user: User, doctorId: Option<string>, patientId: Option<string>)
    requires user.role == "patient" && !Truthy(doctorId)
    ensures var avail := Filter(us, AvailableOnlineDoctor);
      && (avail == [] ==> CreationPlan(us, user, doctorId, patientId) == Deny(404, "No doctors available at this time"))
      && (avail != [] ==> CreationPlan(us, user, doctorId, patientId) == Open(user, avail[0], true))
  {
    AutoAssignIsHead(us);
  }

  /** The decision of `call_specific_doctor`, which, unlike room creation, does not ask whether the doctor is online. */
  function CallPlan(us: seq<User>, user: User, doctorId: string): (p: Plan)
    ensures p.Open? ==> p.creator == user && user.role == "patient" && p.counterpart in us
                        && p.counterpart.role == "doctor" && p.counterpart.id == doctorId && IsAvailable(p.counterpart)
    ensures !p.NoRoleBranch?
  {
    if user.role != "patient" then Deny(403, "Only patients can initiate doctor calls")
    else
      match FirstWithId(us, doctorId, Some("doctor"))
      case None => Deny(404, "Doctor not found")
      case Some(k) =>
        if !IsAvailable(us[k]) then Deny(400, "Doctor is not available right now")
        else Open(user, us[k], true)
  }

  /** An available but offline doctor can be called directly, yet not through room creation. */
  lemma CallPlanIgnoresStatus(patient: User, doctor: User)
    requires patient.role == "patient" && doctor.role == "doctor" && doctor.id != ""
    requires IsAvailable(doctor) && StatusOf(doctor) != "online"
    ensures CallPlan([doctor], patient, doctor.id).Open?
    ensures CreationPlan([doctor], patient, Some(doctor.id), None) == Deny(400, "Doctor is currently offline")
  {
  }

  /** The room an open plan stores. */
  function RoomFor(id: string, p: Plan, now: nat, status: Option<CallStatus>): (r: VideoRoom)
    requires p.Open? && status != Some(Rejected)
    ensures WellFormedRoom(r) && r.active && r.id == id && r.callStatus == status
    ensures r.participants == [p.creator.id, p.counterpart.id] && r.creator == p.creator.id
    ensures r.patientId == (if p.creatorIsPatient then p.creator.id else p.counterpart.id)
    ensures r.doctorId == (if p.creatorIsPatient then p.counterpart.id else p.creator.id)
  {
    var patient := if p.creatorIsPatient then p.creator.id else p.counterpart.id;
    var doctor := if p.creatorIsPatient then p.counterpart.id else p.creator.id;
    NewRoom(id, p.creator.id, p.counterpart.id, patient, doctor, now, status)
  }
}
