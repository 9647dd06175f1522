/**
 * The in-memory store of the telehealth backend and its route and socket
 * handlers. The module-level dictionaries of the server are the fields of one
 * `Backend` object; each handler is a method that either refuses with a status
 * code and leaves the store alone, or updates exactly the dictionaries it
 * names in its `modifies` clause.
 *
 * The identity carried by the access token (the user's email) is a parameter
 * of every protected handler; generated ids and the clock are parameters too.
 */
module BackendStore {
  import opened Common
  import opened Text
  import opened Seqs
  import opened OrderedMaps
  import opened BackendModel
  import opened Listings

  // ------------------------------------------------------------------ reply bodies

  /** The body of a successful registration (tokens left out). */
  datatype Registered = Registered(id: string, name: string, email: string, role: string, avatar: string)

  /** `{'id', 'name', 'email', 'role'}`, as `login` and `get_user` return it (tokens left out). */
  datatype Account = Account(id: string, name: string, email: string, role: string)

  function AccountOf(u: User): Account { Account(u.id, u.name, u.email, u.role) }

  /**
   * The counterpart a room-creation reply describes: a doctor (its avatar is
   * absent from the reply of `call_specific_doctor`) or a patient.
   */
  datatype Counterpart =
    | DoctorCard(id: string, name: string, specialty: Option<string>, avatar: Option<string>)
    | PatientCard(id: string, name: string, picture: string)

  datatype RoomCreated = RoomCreated(
    roomId: string,
    creatorName: string,
    counterpart: Counterpart,
    createdAt: nat,
    callStatus: Option<CallStatus>)

  datatype Joined = Joined(
    roomId: string,
    participants: seq<Participant>,
    createdAt: nat,
    patientId: string,
    doctorId: string,
    callStatus: CallStatus)

  datatype Responded = Responded(status: CallStatus, roomId: string)

  datatype Ended = Ended(endedAt: nat, followUp: Option<string>)

  /** The reply of `create_video_room` for an open plan. */
  function CreatedReply(id: string, p: Plan, now: nat): RoomCreated
    requires p.Open?
  {
    var c := p.counterpart;
    RoomCreated(id, p.creator.name,
                if p.creatorIsPatient then DoctorCard(c.id, c.name, c.specialty, Some(AvatarOf(c)))
                else PatientCard(c.id, c.name, AvatarOf(c)),
                now, Some(Pending))
  }

  /** A scalar JSON value as `request.json` may hold it. */
  datatype JsonScalar = JNull | JBool(b: bool) | JNum(n: int) | JStr(s: string)

  /** Python `bool(v)`. */
  function PyBool(v: JsonScalar): bool {
    match v
    case JNull => false
    case JBool(b) => b
    case JNum(n) => n != 0
    case JStr(s) => s != ""
  }

  // ------------------------------------------------------------------ refusals shared by the room handlers

  /**
   * The refusal of a handler that acts on an existing room, in the order the
   * handlers check: unknown caller, unknown room, an inactive room (only when
   * `needsActive`), a caller who is not a participant (with `forbidden` as the
   * handler's own message).
   */
  function RoomAccessError(registered: map<string, User>, identity: string, rooms: map<string, VideoRoom>,
                           roomId: string, needsActive: bool, forbidden: string): Option<(int, string)>
  {
    if identity !in registered then Some((404, "User not found"))
    else if roomId !in rooms then Some((404, "Room not found"))
    else if needsActive && !rooms[roomId].active then Some((400, "Room is no longer active"))
    else if registered[identity].id !in rooms[roomId].participants then Some((403, forbidden))
    else None
  }

  /** Access is granted exactly to a known participant of a known room (that is active, when asked). */
  lemma RoomAccessGranted(registered: map<string, User>, identity: string, rooms: map<string, VideoRoom>,
                          roomId: string, needsActive: bool, forbidden: string)
    ensures RoomAccessError(registered, identity, rooms, roomId, needsActive, forbidden).None? <==>
      && identity in registered && roomId in rooms
      && (needsActive ==> rooms[roomId].active)
      && registered[identity].id in rooms[roomId].participants
  {
  }

  /**
   * A rejected, ended or expired room can no longer be joined, by anyone: the
   * join is refused with 400 before the participant test.
   */
  lemma ClosedRoomRefusesJoin(registered: map<string, User>, identity: string, rooms: map<string, VideoRoom>,
                              roomId: string, forbidden: string, userId: string, userName: string,
                              reason: Option<string>, followUp: Option<string>, notes: Option<string>, now: nat)
    requires identity in registered && roomId in rooms && WellFormedRoom(rooms[roomId])
    ensures var rejected := rooms[roomId := RejectedRoom(rooms[roomId], userId, userName, now)];
      RoomAccessError(registered, identity, rejected, roomId, true, forbidden) == Some((400, "Room is no longer active"))
    ensures var ended := rooms[roomId := EndedRoom(rooms[roomId], userId, reason, followUp, notes, now)];
      RoomAccessError(registered, identity, ended, roomId, true, forbidden) == Some((400, "Room is no longer active"))
    ensures IsStale(rooms[roomId], now) ==>
      var expired := rooms[roomId := Expired(rooms[roomId], now)];
      RoomAccessError(registered, identity, expired, roomId, true, forbidden) == Some((400, "Room is no longer active"))
  {
  }

  // ------------------------------------------------------------------ the loops of the listing handlers

  /** The loop of `get_doctors` over `users.values()`, for the caller `me`. */
  method CollectDoctors(all: seq<User>, rooms: seq<ChatRoom>, me: string, specialty: Option<string>,
                        name: Option<string>, availability: Option<string>) returns (doctors: seq<DoctorView>)
    ensures doctors == DoctorListing(all, rooms, me, specialty, name, availability)
  {
    ghost var keep := ListingFilter(specialty, name, availability);
    doctors := [];
    var i := 0;
    while i < |all|
      invariant 0 <= i <= |all|
      invariant doctors == MapSeq(Filter(all[..i], keep), ViewIn(rooms, me))
    {
      var u := all[i];
      assert all[..i + 1] == all[..i] + [u];
      MapFilterSnoc(all[..i], u, keep, ViewIn(rooms, me));
      i := i + 1;
      if u.role != "doctor" {
        continue;
      }
      if Truthy(specialty) && u.specialty.GetOr("") != specialty.value {
        continue;
      }
      if Truthy(name) && !Contains(Lower(u.name), Lower(name.value)) {
        continue;
      }
      if Truthy(availability) && BoolText(IsAvailable(u)) != Lower(availability.value) {
        continue;
      }
      var existing := SharedChatRoom(rooms, me, u.id);
      doctors := doctors + [DoctorView(u.id, u.name, u.email, AvatarOf(u), u.specialty,
                                       StatusOf(u), IsAvailable(u), existing)];
    }
    assert all[..i] == all;
  }

  /** The loop of `search_doctors` over `users.values()`, for the caller `me`. */
  method CollectMatchingDoctors(all: seq<User>, rooms: seq<ChatRoom>, me: string, query: Option<string>,
                                specialty: Option<string>, availability: Option<string>)
    returns (matching: seq<DoctorView>)
    ensures matching == DoctorSearch(all, rooms, me, query, specialty, availability)
  {
    var searchQuery := Lower(query.GetOr(""));
    ghost var keep := SearchFilter(query, specialty, availability);
    matching := [];
    var i := 0;
    while i < |all|
      invariant 0 <= i <= |all|
      invariant matching == MapSeq(Filter(all[..i], keep), ViewIn(rooms, me))
    {
      var u := all[i];
      assert all[..i + 1] == all[..i] + [u];
      MapFilterSnoc(all[..i], u, keep, ViewIn(rooms, me));
      i := i + 1;
      if u.role != "doctor" {
        assert !keep(u);
        continue;
      }
      var nameMatch := if searchQuery != "" then Contains(Lower(u.name), searchQuery) else true;
      var specialtyMatch := if Truthy(specialty) then u.specialty == Some(specialty.value) else true;
      var availabilityMatch :=
        if Truthy(availability) then BoolText(IsAvailable(u)) == Lower(availability.value) else true;
      assert keep(u) == (nameMatch && specialtyMatch && availabilityMatch);
      if nameMatch && specialtyMatch && availabilityMatch {
        var existing := SharedChatRoom(rooms, me, u.id);
        var view := DoctorView(u.id, u.name, u.email, AvatarOf(u), u.specialty,
                               StatusOf(u), IsAvailable(u), existing);
        assert ViewIn(rooms, me)(u) == view;
        matching := matching + [view];
      }
    }
    assert all[..i] == all;
  }

  /** The loop of `get_video_rooms` over `video_rooms.items()`, for the user `me`. */
  method CollectActiveRooms(all: seq<VideoRoom>, us: seq<User>, me: string) returns (active: seq<RoomSummary>)
    ensures active == ActiveRooms(all, us, me)
  {
    active := [];
    var i := 0;
    while i < |all|
      invariant 0 <= i <= |all|
      invariant active == MapSeq(Filter(all[..i], ActiveFor(me)), SummaryIn(us, me))
    {
      var room := all[i];
      assert all[..i + 1] == all[..i] + [room];
      MapFilterSnoc(all[..i], room, ActiveFor(me), SummaryIn(us, me));
      if me in room.participants && room.active {
        assert ActiveFor(me)(room);
        var other := ProjectById(us, OtherParticipant(room.participants, me), InfoOf);
        assert SummaryIn(us, me)(room) == RoomSummary(room.id, room.createdAt, other);
        active := active + [RoomSummary(room.id, room.createdAt, other)];
      } else {
        assert !ActiveFor(me)(room);
      }
      i := i + 1;
    }
    assert all[..i] == all;
  }

  /** The loop of `get_video_history` over `video_rooms.items()`, for the user `me`, before sorting. */
  method CollectHistory(all: seq<VideoRoom>, us: seq<User>, me: string) returns (history: seq<HistoryEntry>)
    ensures history == HistoryEntries(all, us, me)
  {
    history := [];
    var i := 0;
    while i < |all|
      invariant 0 <= i <= |all|
      invariant history == MapSeq(Filter(all[..i], HistoryFor(me)), EntryIn(us, me))
    {
      var room := all[i];
      assert all[..i + 1] == all[..i] + [room];
      MapFilterSnoc(all[..i], room, HistoryFor(me), EntryIn(us, me));
      if me in room.participants && !room.active && room.endTime.Some? && room.endTime.value != 0 {
        assert HistoryFor(me)(room);
        var other := ProjectById(us, OtherParticipant(room.participants, me), BriefOf);
        var entry := HistoryEntry(room.id, room.createdAt, room.endTime.value, other, room.followUp, room.notes);
        assert EntryIn(us, me)(room) == entry;
        history := history + [entry];
      } else {
        assert !HistoryFor(me)(room);
      }
      i := i + 1;
    }
    assert all[..i] == all;
  }

  /** The loop of `get_chat_rooms` over `chat_rooms.items()`, for the user `me`. */
  method CollectChatRooms(all: seq<ChatRoom>, us: seq<User>, messages: map<string, seq<Message>>, me: string)
    returns (rooms: seq<ChatRoomView>)
    ensures rooms == ChatRoomsOf(all, us, messages, me)
  {
    rooms := [];
    var i := 0;
    while i < |all|
      invariant 0 <= i <= |all|
      invariant rooms == MapSeq(Filter(all[..i], MemberOf(me)), ChatViewIn(us, messages, me))
    {
      var room := all[i];
      assert all[..i + 1] == all[..i] + [room];
      MapFilterSnoc(all[..i], room, MemberOf(me), ChatViewIn(us, messages, me));
      if me in room.participants {
        var other := ProjectById(us, OtherParticipant(room.participants, me), BriefOf);
        var msgs := if room.id in messages then messages[room.id] else [];
        var last := if msgs == [] then None else Some(msgs[|msgs| - 1]);
        rooms := rooms + [ChatRoomView(room.id, room.name, other, last, UnreadCount(msgs, me))];
      }
      i := i + 1;
    }
    assert all[..i] == all;
  }

  // ------------------------------------------------------------------ invariants

  /** Every room is stored under its own id and is well formed. */
  predicate RoomsWellFormed(d: OrderedMap<string, VideoRoom>) {
    forall k :: k in d.entries ==> d.entries[k].id == k && WellFormedRoom(d.entries[k])
  }

  predicate ChatRoomsKeyed(d: OrderedMap<string, ChatRoom>) {
    forall k :: k in d.entries ==> d.entries[k].id == k
  }

  /** `user['status'] = status` for the `i`-th user in iteration order. */
  function WithStatus(d: OrderedMap<string, User>, i: nat, status: string): (r: OrderedMap<string, User>)
    requires d.Valid() && i < |d.keys|
    ensures r.Valid() && r.keys == d.keys
  {
    d.Put(d.keys[i], d.entries[d.keys[i]].(status := Some(status)))
  }

  /** `if email not in users: users[email] = u` */
  function PutIfAbsent(d: OrderedMap<string, User>, email: string, u: User): (r: OrderedMap<string, User>)
    requires d.Valid()
    ensures r.Valid()
    ensures email in d.entries ==> r == d
    ensures email !in d.entries ==> r == d.Put(email, u)
  {
    if email in d.entries then d else d.Put(email, u)
  }

  /** Storing a well-formed room under its own id keeps the room map well formed. */
  lemma PutRoom(d: OrderedMap<string, VideoRoom>, k: string, room: VideoRoom)
    requires d.Valid() && RoomsWellFormed(d) && room.id == k && WellFormedRoom(room)
    ensures d.Put(k, room).Valid() && RoomsWellFormed(d.Put(k, room))
  {
    var r := d.Put(k, room);
    forall k' | k' in r.entries ensures r.entries[k'].id == k' && WellFormedRoom(r.entries[k']) {
      if k' != k {
        assert r.entries[k'] == d.entries[k'];
      }
    }
  }

  /** Ending the `i`-th room keeps the room map well formed and touches no other room. */
  lemma ExpireOne(d: OrderedMap<string, VideoRoom>, i: nat, now: nat)
    requires d.Valid() && RoomsWellFormed(d) && i < |d.keys|
    ensures var r := d.Put(d.keys[i], Expired(d.entries[d.keys[i]], now));
      && r.Valid() && RoomsWellFormed(r) && r.keys == d.keys && r.entries.Keys == d.entries.Keys
      && forall j :: 0 <= j < |d.keys| && j != i ==> r.entries[d.keys[j]] == d.entries[d.keys[j]]
  {
    var k := d.keys[i];
    assert k in d.entries;
  }

  /**
   * One step of the cleanup loop: when the rooms before position `i` are
   * expired and the rest are as they were, expiring room `i` (if it is
   * stale) extends the expired prefix by one.
   */
  lemma ExpireStep(orig: OrderedMap<string, VideoRoom>, rooms: OrderedMap<string, VideoRoom>, i: nat, now: nat)
    requires orig.Valid() && RoomsWellFormed(orig)
    requires rooms.Valid() && RoomsWellFormed(rooms) && rooms.keys == orig.keys && i < |orig.keys|
    requires forall j :: 0 <= j < i ==> rooms.entries[orig.keys[j]] == Expired(orig.entries[orig.keys[j]], now)
    requires forall j :: i <= j < |orig.keys| ==> rooms.entries[orig.keys[j]] == orig.entries[orig.keys[j]]
    ensures var room := rooms.entries[orig.keys[i]];
      var r := if IsStale(room, now) then rooms.Put(orig.keys[i], Expired(room, now)) else rooms;
      && r.Valid() && RoomsWellFormed(r) && r.keys == orig.keys
      && (forall j :: 0 <= j < i + 1 ==> r.entries[orig.keys[j]] == Expired(orig.entries[orig.keys[j]], now))
      && (forall j :: i + 1 <= j < |orig.keys| ==> r.entries[orig.keys[j]] == orig.entries[orig.keys[j]])
  {
    var room := rooms.entries[orig.keys[i]];
    assert room == orig.entries[orig.keys[i]];
    if IsStale(room, now) {
      ExpireStale(orig, rooms, i, now);
    } else {
      assert Expired(room, now) == room;
    }
  }

  /** The step of `ExpireStep` for a stale room. */
  lemma ExpireStale(orig: OrderedMap<string, VideoRoom>, rooms: OrderedMap<string, VideoRoom>, i: nat, now: nat)
    requires orig.Valid() && rooms.Valid() && RoomsWellFormed(rooms) && rooms.keys == orig.keys && i < |orig.keys|
    requires forall j :: 0 <= j < i ==> rooms.entries[orig.keys[j]] == Expired(orig.entries[orig.keys[j]], now)
    requires forall j :: i <= j < |orig.keys| ==> rooms.entries[orig.keys[j]] == orig.entries[orig.keys[j]]
    requires IsStale(rooms.entries[orig.keys[i]], now)
    ensures var r := rooms.Put(orig.keys[i], Expired(rooms.entries[orig.keys[i]], now));
      && r.Valid() && RoomsWellFormed(r) && r.keys == orig.keys
      && (forall j :: 0 <= j < i + 1 ==> r.entries[orig.keys[j]] == Expired(orig.entries[orig.keys[j]], now))
      && (forall j :: i + 1 <= j < |orig.keys| ==> r.entries[orig.keys[j]] == orig.entries[orig.keys[j]])
  {
    var keys := orig.keys;
    ExpireOne(rooms, i, now);
    var r := rooms.Put(keys[i], Expired(rooms.entries[keys[i]], now));
    forall j | 0 <= j < i ensures r.entries[keys[j]] == Expired(orig.entries[keys[j]], now) {
      assert r.entries[keys[j]] == rooms.entries[keys[j]];
    }
    forall j | i + 1 <= j < |keys| ensures r.entries[keys[j]] == orig.entries[keys[j]] {
      assert r.entries[keys[j]] == rooms.entries[keys[j]];
    }
  }

  // ------------------------------------------------------------------ seeded and sample accounts

  const SeedPatient: User :=
    User("user-1", "John Doe", "user1@example.com", Hashed("password123"), "patient",
         None, None, None, None, None)
  const SeedDoctor: User :=
    User("doctor-1", "Dr. Sarah Johnson", "doctor1@example.com", Hashed("password123"), "doctor",
         None, None, Some("online"), Some("General Medicine"), Some(true))

  const SamplePatient: User :=
    User("patient-1", "Jane Smith", "patient1@example.com", Hashed("password123"), "patient",
         Some(PlaceholderAvatar), None, Some("offline"), None, None)
  const SampleCardiologist: User :=
    User("doctor-2", "Dr. Michael Chen", "doctor2@example.com", Hashed("password123"), "doctor",
         Some(PlaceholderAvatar), None, Some("offline"), Some("Cardiology"), Some(true))
  const SampleDermatologist: User :=
    User("doctor-3", "Dr. Emily Rodriguez", "doctor3@example.com", Hashed("password123"), "doctor",
         Some(PlaceholderAvatar), None, Some("offline"), Some("Dermatology"), Some(false))

  class Backend {
    var users: OrderedMap<string, User>
    var videoRooms: OrderedMap<string, VideoRoom>
    /** Read by the chat handlers; no handler of the server adds to it. */
    var chatRooms: OrderedMap<string, ChatRoom>
    var chatMessages: map<string, seq<Message>>
    /** Socket session id to user id. */
    var onlineUsers: map<string, string>
    var tokenBlocklist: set<string>

    ghost predicate Valid()
      reads this
    {
      && users.Valid() && videoRooms.Valid() && chatRooms.Valid()
      && RoomsWellFormed(videoRooms) && ChatRoomsKeyed(chatRooms)
    }

    /** The store as the server starts: two seeded accounts and nothing else. */
    constructor ()
      ensures Valid()
      ensures users.keys == ["user1@example.com", "doctor1@example.com"]
      ensures users.entries == map["user1@example.com" := SeedPatient, "doctor1@example.com" := SeedDoctor]
      ensures videoRooms == Empty() && chatRooms == Empty()
      ensures chatMessages == map[] && onlineUsers == map[] && tokenBlocklist == {}
    {
      users := Empty().Put("user1@example.com", SeedPatient).Put("doctor1@example.com", SeedDoctor);
      videoRooms := Empty();
      chatRooms := Empty();
      chatMessages := map[];
      onlineUsers := map[];
      tokenBlocklist := {};
    }

    /** The sample accounts, each added only when its email is not registered yet. */
    method AddSampleUsers()
      requires Valid()
      modifies this`users
      ensures Valid()
      ensures users == PutIfAbsent(PutIfAbsent(PutIfAbsent(old(users),
                         "patient1@example.com", SamplePatient),
                         "doctor2@example.com", SampleCardiologist),
                         "doctor3@example.com", SampleDermatologist)
    {
      if "patient1@example.com" !in users.entries {
        users := users.Put("patient1@example.com", SamplePatient);
      }
      if "doctor2@example.com" !in users.entries {
        users := users.Put("doctor2@example.com", SampleCardiologist);
      }
      if "doctor3@example.com" !in users.entries {
        users := users.Put("doctor3@example.com", SampleDermatologist);
      }
    }

    // ---------------------------------------------------------------- accounts and tokens

    /** `check_if_token_is_revoked`: a token is refused once its id is on the blocklist. */
    predicate TokenRevoked(jti: string)
      reads this
    {
      jti in tokenBlocklist
    }

    /**
     * `register`: the checks in order, then the new account at the end of
     * `users`. A missing role is "patient"; a role sent as `null` is not
     * modelled, so `role` is either missing (None) or a string.
     */
    method Register(email: Option<string>, password: Option<string>, name: Option<string>,
                    role: Option<string>, specialty: Field<string>, uuidHex: string, now: nat)
      returns (r: Reply<Registered>)
      requires Valid()
      modifies this`users
      ensures Valid()
      ensures RegistrationError(email, password, name, old(users.entries)).Some? ==>
                && r == Failure(400, RegistrationError(email, password, name, old(users.entries)).value)
                && users == old(users)
      ensures RegistrationError(email, password, name, old(users.entries)).None? ==>
                var u := NewAccount(email.value, password.value, name.value, role.GetOr("patient"),
                                    specialty, uuidHex, now);
                && users == old(users).Put(email.value, u)
                && users.keys == old(users.keys) + [email.value]
                && r == Success(201, Registered(u.id, name.value, email.value, u.role, PlaceholderAvatar))
    {
      var err := RegistrationError(email, password, name, users.entries);
      if err.Some? {
        return Failure(400, err.value);
      }
      var chosenRole := role.GetOr("patient");
      var u := NewAccount(email.value, password.value, name.value, chosenRole, specialty, uuidHex, now);
      users := users.Put(email.value, u);
      r := Success(201, Registered(u.id, name.value, email.value, chosenRole, PlaceholderAvatar));
    }

    /** Revokes the token `jti` and marks the caller offline when the caller is known. */
    method Logout(jti: string, identity: string) returns (r: Reply<()>)
      requires Valid()
      modifies this`tokenBlocklist, this`users
      ensures Valid()
      ensures tokenBlocklist == old(tokenBlocklist) + {jti}
      ensures TokenRevoked(jti)
      ensures forall other :: other != jti ==> (TokenRevoked(other) <==> old(TokenRevoked(other)))
      ensures identity in old(users.entries) ==>
                users == old(users).Put(identity, old(users.entries[identity]).(status := Some("offline")))
      ensures identity !in old(users.entries) ==> users == old(users)
      ensures r == Success(200, ())
    {
      tokenBlocklist := tokenBlocklist + {jti};
      if identity in users.entries {
        users := users.Put(identity, users.entries[identity].(status := Some("offline")));
      }
      r := Success(200, ());
    }

    method Login(email: Option<string>, password: Option<string>) returns (r: Reply<Account>)
      requires Valid()
      modifies this`users
      ensures Valid()
      ensures LoginError(email, password, old(users.entries)).Some? ==>
                var e := LoginError(email, password, old(users.entries)).value;
                r == Failure(e.0, e.1) && users == old(users)
      ensures LoginError(email, password, old(users.entries)).None? ==>
                var u := old(users.entries[email.value]);
                && users == old(users).Put(email.value, u.(status := Some("online")))
                && r == Success(200, AccountOf(u))
    {
      var err := LoginError(email, password, users.entries);
      if err.Some? {
        return Failure(err.value.0, err.value.1);
      }
      var u := users.entries[email.value];
      users := users.Put(email.value, u.(status := Some("online")));
      r := Success(200, AccountOf(u));
    }

    /** `get_user`: the caller's own account. */
    method GetUser(identity: string) returns (r: Reply<Account>)
      requires Valid()
      ensures r.IsOk() <==> identity in users.entries
      ensures r.IsOk() ==> r.body == AccountOf(users.entries[identity]) && r.code == 200
      ensures !r.IsOk() ==> r == Failure(404, "User not found")
    {
      var u := users.Get(identity);
      if u.None? {
        return Failure(404, "User not found");
      }
      r := Success(200, AccountOf(u.value));
    }

    // ---------------------------------------------------------------- doctors

    /** `get_doctors`: the doctors that pass every given filter, in `users` order. */
    method GetDoctors(identity: string, specialty: Option<string>, name: Option<string>, availability: Option<string>)
      returns (r: Reply<seq<DoctorView>>)
      requires Valid()
      ensures identity !in users.entries ==> r == Failure(404, "User not found")
      ensures identity in users.entries ==>
        r == Success(200, DoctorListing(users.Values(), chatRooms.Values(), users.entries[identity].id,
                                        specialty, name, availability))
    {
      var current := users.Get(identity);
      if current.None? {
        return Failure(404, "User not found");
      }
      var me := current.value.id;
      var doctors := CollectDoctors(users.Values(), chatRooms.Values(), me, specialty, name, availability);
      r := Success(200, doctors);
    }

    /** `search_doctors`: like the listing, with a lowered query and an exact specialty test. */
    method SearchDoctors(identity: string, query: Option<string>, specialty: Option<string>, availability: Option<string>)
      returns (r: Reply<seq<DoctorView>>)
      requires Valid()
      ensures identity !in users.entries ==> r == Failure(404, "User not found")
      ensures identity in users.entries ==>
        r == Success(200, DoctorSearch(users.Values(), chatRooms.Values(), users.entries[identity].id,
                                       query, specialty, availability))
    {
      var current := users.Get(identity);
      if current.None? {
        return Failure(404, "User not found");
      }
      var me := current.value.id;
      var matching := CollectMatchingDoctors(users.Values(), chatRooms.Values(), me, query, specialty, availability);
      r := Success(200, matching);
    }

    /** `update_doctor_availability`: a doctor sets its own availability to the truth value sent. */
    method UpdateDoctorAvailability(identity: string, availability: Option<JsonScalar>) returns (r: Reply<bool>)
      requires Valid()
      modifies this`users
      ensures Valid()
      ensures identity !in old(users.entries) ==> r == Failure(404, "User not found") && users == old(users)
      ensures identity in old(users.entries) && old(users.entries[identity]).role != "doctor" ==>
                r == Failure(403, "Only doctors can update availability") && users == old(users)
      ensures identity in old(users.entries) && old(users.entries[identity]).role == "doctor" ==>
                if availability.None? || availability.value.JNull? then
                  r == Failure(400, "Availability status is required") && users == old(users)
                else
                  && users == old(users).Put(identity, old(users.entries[identity]).(availability := Some(PyBool(availability.value))))
                  && r == Success(200, PyBool(availability.value))
    {
      var u := users.Get(identity);
      if u.None? {
        return Failure(404, "User not found");
      }
      if u.value.role != "doctor" {
        return Failure(403, "Only doctors can update availability");
      }
      if availability.None? || availability.value.JNull? {
        return Failure(400, "Availability status is required");
      }
      var now := PyBool(availability.value);
      users := users.Put(identity, u.value.(availability := Some(now)));
      r := Success(200, now);
    }

    // ---------------------------------------------------------------- creating rooms

    /** `call_specific_doctor`: a patient opens a room with a named, available doctor; no call status is set. */
    method CallSpecificDoctor(identity: string, doctorId: string, roomHex: string, now: nat)
      returns (r: Reply<RoomCreated>)
      requires Valid()
      modifies this`videoRooms
      ensures Valid()
      ensures identity !in users.entries ==> r == Failure(404, "User not found") && videoRooms == old(videoRooms)
      ensures identity in users.entries ==>
        var p := CallPlan(users.Values(), users.entries[identity], doctorId);
        var id := "room-" + roomHex;
        && (p.Deny? ==> r == Failure(p.code, p.error) && videoRooms == old(videoRooms))
        && (p.Open? ==>
              && videoRooms == old(videoRooms).Put(id, RoomFor(id, p, now, None))
              && r == Success(201, RoomCreated(id, p.creator.name,
                                               DoctorCard(p.counterpart.id, p.counterpart.name,
                                                          p.counterpart.specialty, None),
                                               now, None)))
    {
      var user := users.Get(identity);
      if user.None? {
        return Failure(404, "User not found");
      }
      var p := CallPlan(users.Values(), user.value, doctorId);
      if !p.Open? {
        return Failure(p.code, p.error);
      }
      var id := "room-" + roomHex;
      PutRoom(videoRooms, id, RoomFor(id, p, now, None));
      videoRooms := videoRooms.Put(id, RoomFor(id, p, now, None));
      var doctor := p.counterpart;
      r := Success(201, RoomCreated(id, user.value.name,
                                    DoctorCard(doctor.id, doctor.name, doctor.specialty, None),
                                    now, None));
    }

    /**
     * `create_video_room`: a patient opens a pending room with a named or an
     * auto-assigned doctor, a doctor with a named patient. For any other role
     * the handler returns nothing, which the server answers with a 500.
     */
    method CreateVideoRoom(identity: string, doctorId: Option<string>, patientId: Option<string>,
                           roomHex: string, now: nat)
      returns (r: Reply<RoomCreated>)
      requires Valid()
      modifies this`videoRooms
      ensures Valid()
      ensures identity !in users.entries ==> r == Failure(404, "User not found") && videoRooms == old(videoRooms)
      ensures identity in users.entries ==>
        var p := CreationPlan(users.Values(), users.entries[identity], doctorId, patientId);
        var id := "room-" + roomHex;
        && (p.Deny? ==> r == Failure(p.code, p.error) && videoRooms == old(videoRooms))
        && (p.NoRoleBranch? ==> r == Failure(500, "Internal Server Error") && videoRooms == old(videoRooms))
        && (p.Open? ==>
              && videoRooms == old(videoRooms).Put(id, RoomFor(id, p, now, Some(Pending)))
              && r == Success(201, CreatedReply(id, p, now)))
    {
      var user := users.Get(identity);
      if user.None? {
        return Failure(404, "User not found");
      }
      var id := "room-" + roomHex;
      var p := CreationPlan(users.Values(), user.value, doctorId, patientId);
      match p {
        case Deny(code, error) =>
          r := Failure(code, error);
        case NoRoleBranch =>
          r := Failure(500, "Internal Server Error");
        case Open(_, _, _) =>
          PutRoom(videoRooms, id, RoomFor(id, p, now, Some(Pending)));
          videoRooms := videoRooms.Put(id, RoomFor(id, p, now, Some(Pending)));
          r := Success(201, CreatedReply(id, p, now));
      }
    }

    // ---------------------------------------------------------------- acting on a room

    /** `join_video_room`: a participant joins an active room; a pending call becomes connected. */
    method JoinVideoRoom(identity: string, roomId: string) returns (r: Reply<Joined>)
      requires Valid()
      modifies this`videoRooms
      ensures Valid()
      ensures var e := RoomAccessError(users.entries, identity, old(videoRooms.entries), roomId, true,
                                       "You are not authorized to join this room");
        && (e.Some? ==> r == Failure(e.value.0, e.value.1) && videoRooms == old(videoRooms))
        && (e.None? ==>
              var room := old(videoRooms.entries[roomId]);
              && videoRooms == old(videoRooms).Put(roomId, JoinedRoom(room))
              && videoRooms.keys == old(videoRooms.keys)
              && r == Success(200, Joined(roomId, KnownParticipants(users.Values(), room.participants),
                                          room.createdAt, room.patientId, room.doctorId,
                                          JoinedRoom(room).callStatus.GetOr(Connected))))
    {
      var e := RoomAccessError(users.entries, identity, videoRooms.entries, roomId, true,
                               "You are not authorized to join this room");
      if e.Some? {
        return Failure(e.value.0, e.value.1);
      }
      var room := JoinedRoom(videoRooms.entries[roomId]);
      PutRoom(videoRooms, roomId, room);
      videoRooms := videoRooms.Put(roomId, room);
      var participants := KnownParticipants(users.Values(), room.participants);
      r := Success(200, Joined(roomId, participants, room.createdAt, room.patientId, room.doctorId,
                               room.callStatus.GetOr(Connected)));
    }

    /**
     * `respond_to_video_call`: a participant accepts (also when the body has
     * no `response`) or rejects the call; any other answer, `null` included,
     * is refused. The room need not be active.
     */
    method RespondToVideoCall(identity: string, roomId: string, response: Field<string>, now: nat)
      returns (r: Reply<Responded>)
      requires Valid()
      modifies this`videoRooms
      ensures Valid()
      ensures var e := RoomAccessError(users.entries, identity, old(videoRooms.entries), roomId, false,
                                       "You are not authorized for this room");
        && (e.Some? ==> r == Failure(e.value.0, e.value.1) && videoRooms == old(videoRooms))
        && (e.None? ==>
              var room := old(videoRooms.entries[roomId]);
              var user := users.entries[identity];
              var answer := response.Get("accept");
              && (answer == Some("accept") ==>
                    videoRooms == old(videoRooms).Put(roomId, AcceptedRoom(room))
                    && r == Success(200, Responded(Accepted, roomId)))
              && (answer == Some("reject") ==>
                    videoRooms == old(videoRooms).Put(roomId, RejectedRoom(room, user.id, user.name, now))
                    && r == Success(200, Responded(Rejected, roomId)))
              && (answer != Some("accept") && answer != Some("reject") ==>
                    videoRooms == old(videoRooms)
                    && r == Failure(400, "Invalid response. Must be 'accept' or 'reject'")))
    {
      var e := RoomAccessError(users.entries, identity, videoRooms.entries, roomId, false,
                               "You are not authorized for this room");
      if e.Some? {
        return Failure(e.value.0, e.value.1);
      }
      var user := users.entries[identity];
      var room := videoRooms.entries[roomId];
      var answer := response.Get("accept");
      if answer == Some("accept") {
        PutRoom(videoRooms, roomId, AcceptedRoom(room));
        videoRooms := videoRooms.Put(roomId, AcceptedRoom(room));
        r := Success(200, Responded(Accepted, roomId));
      } else if answer == Some("reject") {
        PutRoom(videoRooms, roomId, RejectedRoom(room, user.id, user.name, now));
        videoRooms := videoRooms.Put(roomId, RejectedRoom(room, user.id, user.name, now));
        r := Success(200, Responded(Rejected, roomId));
      } else {
        r := Failure(400, "Invalid response. Must be 'accept' or 'reject'");
      }
    }

    /**
     * `end_video_room`: a participant ends the room. A missing reason defaults
     * to one naming the caller; a reason sent as `null` is stored as None.
     */
    method EndVideoRoom(identity: string, roomId: string, reason: Field<string>,
                        followUp: Option<string>, notes: Option<string>, now: nat)
      returns (r: Reply<Ended>)
      requires Valid()
      modifies this`videoRooms
      ensures Valid()
      ensures var e := RoomAccessError(users.entries, identity, old(videoRooms.entries), roomId, false,
                                       "You are not a participant in this room");
        && (e.Some? ==> r == Failure(e.value.0, e.value.1) && videoRooms == old(videoRooms))
        && (e.None? ==>
              var room := old(videoRooms.entries[roomId]);
              var user := users.entries[identity];
              var why := reason.Get("Call ended by " + user.name);
              && videoRooms == old(videoRooms).Put(roomId, EndedRoom(room, user.id, why, followUp, notes, now))
              && r == Success(200, Ended(now, if Truthy(followUp) then followUp else None)))
    {
      var e := RoomAccessError(users.entries, identity, videoRooms.entries, roomId, false,
                               "You are not a participant in this room");
      if e.Some? {
        return Failure(e.value.0, e.value.1);
      }
      var user := users.entries[identity];
      var why := reason.Get("Call ended by " + user.name);
      PutRoom(videoRooms, roomId, EndedRoom(videoRooms.entries[roomId], user.id, why, followUp, notes, now));
      videoRooms := videoRooms.Put(roomId, EndedRoom(videoRooms.entries[roomId], user.id, why, followUp, notes, now));
      r := Success(200, Ended(now, if Truthy(followUp) then followUp else None));
    }

    // ---------------------------------------------------------------- listing rooms

    /** `get_video_rooms`: the caller's active rooms, in `video_rooms` order. */
    method GetVideoRooms(identity: string) returns (r: Reply<seq<RoomSummary>>)
      requires Valid()
      ensures identity !in users.entries ==> r == Failure(404, "User not found")
      ensures identity in users.entries ==>
        r == Success(200, ActiveRooms(videoRooms.Values(), users.Values(), users.entries[identity].id))
    {
      var user := users.Get(identity);
      if user.None? {
        return Failure(404, "User not found");
      }
      var me := user.value.id;
      var active := CollectActiveRooms(videoRooms.Values(), users.Values(), me);
      r := Success(200, active);
    }

    /** `get_video_history`: the caller's finished rooms, newest first. */
    method GetVideoHistory(identity: string) returns (r: Reply<seq<HistoryEntry>>)
      requires Valid()
      ensures identity !in users.entries ==> r == Failure(404, "User not found")
      ensures identity in users.entries ==>
        r == Success(200, SortByStartDesc(HistoryEntries(videoRooms.Values(), users.Values(), users.entries[identity].id)))
      ensures r.IsOk() ==> SortedByStartDesc(r.body)
    {
      var user := users.Get(identity);
      if user.None? {
        return Failure(404, "User not found");
      }
      var me := user.value.id;
      var history := CollectHistory(videoRooms.Values(), users.Values(), me);
      r := Success(200, SortByStartDesc(history));
    }

    /**
     * `cleanup_stale_video_rooms`: every active room older than the threshold
     * is ended at `now`; no room is added, removed or reordered.
     */
    method CleanupStaleVideoRooms(now: nat)
      requires Valid()
      modifies this`videoRooms
      ensures Valid()
      ensures videoRooms.keys == old(videoRooms.keys)
      ensures videoRooms.entries.Keys == old(videoRooms.entries.Keys)
      ensures forall k :: k in old(videoRooms.entries) ==>
                videoRooms.entries[k] == Expired(old(videoRooms.entries[k]), now)
    {
      ghost var orig := videoRooms;
      var rooms := videoRooms;
      var keys := rooms.keys;
      var i := 0;
      while i < |keys|
        invariant 0 <= i <= |keys|
        invariant rooms.Valid() && RoomsWellFormed(rooms)
        invariant rooms.keys == keys
        invariant forall j :: 0 <= j < i ==> rooms.entries[keys[j]] == Expired(orig.entries[keys[j]], now)
        invariant forall j :: i <= j < |keys| ==> rooms.entries[keys[j]] == orig.entries[keys[j]]
      {
        var k := keys[i];
        var room := rooms.entries[k];
        ExpireStep(orig, rooms, i, now);
        if IsStale(room, now) {
          rooms := rooms.Put(k, Expired(room, now));
        }
        i := i + 1;
      }
      videoRooms := rooms;
      SameDomain(rooms, orig);
      forall key | key in old(videoRooms.entries)
        ensures videoRooms.entries[key] == Expired(old(videoRooms.entries[key]), now)
      {
        var j := IndexIn(keys, key);
      }
    }

    // ---------------------------------------------------------------- chat

    /** The socket `message` event: one unread message is appended to the room's list. */
    method HandleMessage(roomId: string, content: string, senderId: string, senderName: string,
                         messageId: string, now: nat)
      modifies this`chatMessages
      ensures var before := if roomId in old(chatMessages) then old(chatMessages)[roomId] else [];
        chatMessages == old(chatMessages)[roomId := before + [Message(messageId, roomId, senderId, senderName,
                                                                       content, now, false)]]
    {
      if roomId !in chatMessages {
        chatMessages := chatMessages[roomId := []];
      }
      chatMessages := chatMessages[roomId := chatMessages[roomId] + [Message(messageId, roomId, senderId, senderName,
                                                                            content, now, false)]];
    }

    /** `get_chat_history`: the messages of a room the caller belongs to. */
    method GetChatHistory(identity: string, roomId: string) returns (r: Reply<seq<Message>>)
      requires Valid()
      ensures identity !in users.entries ==> r == Failure(404, "User not found")
      ensures identity in users.entries ==>
        if roomId in chatRooms.entries && users.entries[identity].id in chatRooms.entries[roomId].participants then
          r == Success(200, if roomId in chatMessages then chatMessages[roomId] else [])
        else r == Failure(403, "Access denied")
    {
      var user := users.Get(identity);
      if user.None? {
        return Failure(404, "User not found");
      }
      if roomId !in chatRooms.entries || user.value.id !in chatRooms.entries[roomId].participants {
        return Failure(403, "Access denied");
      }
      r := Success(200, if roomId in chatMessages then chatMessages[roomId] else []);
    }

    /** `get_chat_rooms`: the caller's chat rooms with last message and unread count. */
    method GetChatRooms(identity: string) returns (r: Reply<seq<ChatRoomView>>)
      requires Valid()
      ensures identity !in users.entries ==> r == Failure(404, "User not found")
      ensures identity in users.entries ==>
        r == Success(200, ChatRoomsOf(chatRooms.Values(), users.Values(), chatMessages, users.entries[identity].id))
    {
      var user := users.Get(identity);
      if user.None? {
        return Failure(404, "User not found");
      }
      var me := user.value.id;
      var rooms := CollectChatRooms(chatRooms.Values(), users.Values(), chatMessages, me);
      r := Success(200, rooms);
    }

    // ---------------------------------------------------------------- presence

    /** The socket `user_connected` event: a known user goes online and its session is tracked. */
    method HandleUserConnected(sid: string, userId: Option<string>)
      requires Valid()
      modifies this`users, this`onlineUsers
      ensures Valid()
      ensures !Truthy(userId) ==> users == old(users) && onlineUsers == old(onlineUsers)
      ensures Truthy(userId) ==>
        var k := FirstWithId(old(users.Values()), userId.value, None);
        && (k.None? ==> users == old(users) && onlineUsers == old(onlineUsers))
        && (k.Some? ==> users == WithStatus(old(users), k.value, "online")
                        && onlineUsers == old(onlineUsers)[sid := userId.value])
    {
      if !Truthy(userId) {
        return;
      }
      var k := FirstWithId(users.Values(), userId.value, None);
      if k.Some? {
        users := WithStatus(users, k.value, "online");
        onlineUsers := onlineUsers[sid := userId.value];
      }
    }

    /** The socket `disconnect` event: a tracked session's user goes offline and the session is forgotten. */
    method HandleDisconnect(sid: string)
      requires Valid()
      modifies this`users, this`onlineUsers
      ensures Valid()
      ensures sid !in old(onlineUsers) ==> users == old(users) && onlineUsers == old(onlineUsers)
      ensures sid in old(onlineUsers) ==>
        var k := FirstWithId(old(users.Values()), old(onlineUsers[sid]), None);
        && (k.None? ==> users == old(users))
        && (k.Some? ==> users == WithStatus(old(users), k.value, "offline"))
        && onlineUsers == old(onlineUsers) - {sid}
    {
      if sid in onlineUsers {
        var uid := onlineUsers[sid];
        var k := FirstWithId(users.Values(), uid, None);
        if k.Some? {
          users := WithStatus(users, k.value, "offline");
        }
        onlineUsers := onlineUsers - {sid};
      }
    }
  }
}
