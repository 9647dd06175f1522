/**
 * The tests and projections the listing endpoints of the backend apply to
 * each element they iterate over. Each listing is "keep the elements that pass
 * a test, in iteration order, and project each of them", that is
 * `MapSeq(Filter(...), ...)` over the values of a dictionary.
 */
module Listings {
  import opened Common
  import opened Text
  import opened Seqs
  import opened BackendModel

  // ------------------------------------------------------------------ doctors

  /** The filter of `get_doctors` with its three query parameters fixed. */
  function ListingFilter(specialty: Option<string>, name: Option<string>, availability: Option<string>): User -> bool {
    (u: User) => ListingMatch(u, specialty, name, availability)
  }

  /** The filter of `search_doctors` with its three query parameters fixed. */
  function SearchFilter(query: Option<string>, specialty: Option<string>, availability: Option<string>): User -> bool {
    (u: User) => SearchMatch(u, query, specialty, availability)
  }

  /** The entry for one doctor, seen by the user `me`. */
  function ViewIn(rooms: seq<ChatRoom>, me: string): User -> DoctorView {
    (u: User) => ViewOf(u, rooms, me)
  }

  /** `get_doctors` over `users.values()`. */
  function DoctorListing(us: seq<User>, rooms: seq<ChatRoom>, me: string, specialty: Option<string>,
                         name: Option<string>, availability: Option<string>): seq<DoctorView> {
    MapSeq(Filter(us, ListingFilter(specialty, name, availability)), ViewIn(rooms, me))
  }

  /** `search_doctors` over `users.values()`. */
  function DoctorSearch(us: seq<User>, rooms: seq<ChatRoom>, me: string, query: Option<string>,
                        specialty: Option<string>, availability: Option<string>): seq<DoctorView> {
    MapSeq(Filter(us, SearchFilter(query, specialty, availability)), ViewIn(rooms, me))
  }

  /** A listed entry is exactly the view of a doctor that passes every given filter. */
  lemma DoctorListingMembers(us: seq<User>, rooms: seq<ChatRoom>, me: string, specialty: Option<string>,
                             name: Option<string>, availability: Option<string>, d: DoctorView)
    ensures d in DoctorListing(us, rooms, me, specialty, name, availability) <==>
      exists u :: u in us && ListingMatch(u, specialty, name, availability) && d == ViewOf(u, rooms, me)
  {
    MapFilterMembership(us, ListingFilter(specialty, name, availability), ViewIn(rooms, me), d);
  }

  /** Without filters every doctor is listed, and nobody else. */
  lemma DoctorListingUnfiltered(us: seq<User>, rooms: seq<ChatRoom>, me: string, d: DoctorView)
    ensures d in DoctorListing(us, rooms, me, None, None, None) <==>
      exists u :: u in us && u.role == "doctor" && d == ViewOf(u, rooms, me)
  {
    DoctorListingMembers(us, rooms, me, None, None, None, d);
  }

  /** Searching by a name gives the same list as listing with that name filter. */
  lemma {:induction false} SearchIsListing(us: seq<User>, rooms: seq<ChatRoom>, me: string, name: Option<string>,
                                           specialty: Option<string>, availability: Option<string>)
    ensures DoctorSearch(us, rooms, me, name, specialty, availability)
         == DoctorListing(us, rooms, me, specialty, name, availability)
  {
    FilterSameTest(us, SearchFilter(name, specialty, availability), ListingFilter(specialty, name, availability));
  }

  /** Two tests that agree on every user filter a sequence of users alike. */
  lemma {:induction false} FilterSameTest(us: seq<User>, p: User -> bool, q: User -> bool)
    requires forall u :: p(u) == q(u)
    ensures Filter(us, p) == Filter(us, q)
  {
    if us != [] {
      FilterSameTest(us[1..], p, q);
    }
  }

  // ------------------------------------------------------------------ video rooms

  /** `get_video_rooms`: rooms the user takes part in that are still active. */
  function ActiveFor(uid: string): VideoRoom -> bool {
    (r: VideoRoom) => uid in r.participants && r.active
  }

  function SummaryIn(us: seq<User>, uid: string): VideoRoom -> RoomSummary {
    (r: VideoRoom) => RoomSummary(r.id, r.createdAt, ProjectById(us, OtherParticipant(r.participants, uid), InfoOf))
  }

  function ActiveRooms(rooms: seq<VideoRoom>, us: seq<User>, uid: string): seq<RoomSummary> {
    MapSeq(Filter(rooms, ActiveFor(uid)), SummaryIn(us, uid))
  }

  /** `get_video_history` keeps the finished rooms of the user. */
  function HistoryFor(uid: string): VideoRoom -> bool {
    (r: VideoRoom) => InHistory(r, uid)
  }

  function EntryIn(us: seq<User>, uid: string): VideoRoom -> HistoryEntry {
    (r: VideoRoom) => HistoryEntry(r.id, r.createdAt, r.endTime.GetOr(0),
                      ProjectById(us, OtherParticipant(r.participants, uid), BriefOf),
                      r.followUp, r.notes)
  }

  /** The history, before sorting. */
  function HistoryEntries(rooms: seq<VideoRoom>, us: seq<User>, uid: string): seq<HistoryEntry> {
    MapSeq(Filter(rooms, HistoryFor(uid)), EntryIn(us, uid))
  }

  /**
   * Every room of a user is in exactly one of the two listings while it is
   * well formed with a non-zero end time: the active list or the history.
   */
  lemma ActiveOrHistory(rooms: seq<VideoRoom>, us: seq<User>, uid: string, r: VideoRoom)
    requires r in rooms && uid in r.participants && WellFormedRoom(r)
    requires r.endTime != Some(0)
    ensures r.active ==> SummaryIn(us, uid)(r) in ActiveRooms(rooms, us, uid)
    ensures !r.active ==> EntryIn(us, uid)(r) in HistoryEntries(rooms, us, uid)
  {
    MapFilterMembership(rooms, ActiveFor(uid), SummaryIn(us, uid), SummaryIn(us, uid)(r));
    MapFilterMembership(rooms, HistoryFor(uid), EntryIn(us, uid), EntryIn(us, uid)(r));
  }

  /** A history entry ended after a non-zero time, and only rooms of the user contribute. */
  lemma HistoryMembers(rooms: seq<VideoRoom>, us: seq<User>, uid: string, e: HistoryEntry)
    ensures e in HistoryEntries(rooms, us, uid) <==>
      exists r :: r in rooms && InHistory(r, uid) && e == EntryIn(us, uid)(r)
    ensures e in HistoryEntries(rooms, us, uid) ==> e.endedAt != 0
  {
    MapFilterMembership(rooms, HistoryFor(uid), EntryIn(us, uid), e);
  }

  // ------------------------------------------------------------------ chat rooms

  /** A message that `uid` has not read and did not send. */
  function UnreadFor(uid: string): Message -> bool {
    (m: Message) => !m.read && m.senderId != uid
  }

  function UnreadCount(msgs: seq<Message>, uid: string): nat {
    Count(msgs, UnreadFor(uid))
  }

  /** A new (unread) message adds one to everyone's unread count except its sender's. */
  lemma UnreadAfterMessage(msgs: seq<Message>, m: Message, uid: string)
    requires !m.read
    ensures UnreadCount(msgs + [m], uid) == UnreadCount(msgs, uid) + (if m.senderId == uid then 0 else 1)
  {
    CountSnoc(msgs, m, UnreadFor(uid));
  }

  /** An entry of `/api/chat/rooms`. */
  datatype ChatRoomView = ChatRoomView(
    id: string,
    name: string,
    other: Option<Brief>,
    lastMessage: Option<Message>,
    unreadCount: nat)

  function MemberOf(uid: string): ChatRoom -> bool {
    (c: ChatRoom) => uid in c.participants
  }

  function ChatViewIn(us: seq<User>, messages: map<string, seq<Message>>, uid: string): ChatRoom -> ChatRoomView {
    (c: ChatRoom) =>
      var msgs := if c.id in messages then messages[c.id] else [];
      ChatRoomView(c.id, c.name, ProjectById(us, OtherParticipant(c.participants, uid), BriefOf),
                   if msgs == [] then None else Some(msgs[|msgs| - 1]),
                   UnreadCount(msgs, uid))
  }

  function ChatRoomsOf(rooms: seq<ChatRoom>, us: seq<User>, messages: map<string, seq<Message>>,
                       uid: string): seq<ChatRoomView> {
    MapSeq(Filter(rooms, MemberOf(uid)), ChatViewIn(us, messages, uid))
  }

  /** The chat-room listing holds one entry for each room the user belongs to and no other. */
  lemma ChatRoomsMembers(rooms: seq<ChatRoom>, us: seq<User>, messages: map<string, seq<Message>>,
                         uid: string, v: ChatRoomView)
    ensures v in ChatRoomsOf(rooms, us, messages, uid) <==>
      exists c :: c in rooms && uid in c.participants && v == ChatViewIn(us, messages, uid)(c)
  {
    MapFilterMembership(rooms, MemberOf(uid), ChatViewIn(us, messages, uid), v);
  }
}
