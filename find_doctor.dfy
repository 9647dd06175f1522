/**
 * The find-a-doctor panel: the filters it sends to the doctor listing, the
 * name filter applied again to the doctors received, and where the chat and
 * video-call buttons lead.
 *
 * Each asynchronous call is replaced by its outcome, given as a parameter:
 * the doctors received, or the id of the room created, or nothing when the
 * call failed. The last page the router was sent to is kept in `route`.
 */
module FindDoctor {
  import opened Common
  import opened Text
  import opened Seqs
  import opened FormUrlEncoding
  import opened ApiService

  /** The fields of a listed doctor the panel uses. */
  datatype Doctor = Doctor(
    id: string,
    name: string,
    specialty: string,
    availability: bool,
    existingChatRoom: Option<string>)

  /**
   * The filters `fetchDoctors` sends: the specialty unless it is empty or
   * "all", the name when a search term is typed, and availability only as
   * `true` when the box is checked.
   */
  function Filters(specialty: string, searchTerm: string, availableOnly: bool): (f: DoctorFilters)
    ensures f.specialty.Some? <==> specialty != "" && specialty != "all"
    ensures f.specialty.Some? ==> f.specialty.value == specialty
    ensures f.name.Some? <==> searchTerm != ""
    ensures f.name.Some? ==> f.name.value == searchTerm
    ensures f.availability != Some(false)
    ensures f.availability == Some(true) <==> availableOnly
  {
    DoctorFilters(if specialty != "" && specialty != "all" then Some(specialty) else None,
                  if searchTerm != "" then Some(searchTerm) else None,
                  if availableOnly then Some(true) else None)
  }

  /**
   * The query the panel's filters turn into: specialty, name and
   * `availability=true`, each only when set, in that order; the listing is
   * never asked for unavailable doctors only.
   */
  lemma FiltersQuery(specialty: string, searchTerm: string, availableOnly: bool)
    ensures DoctorParams(Filters(specialty, searchTerm, availableOnly))
         == (if specialty != "" && specialty != "all" then [Param("specialty", specialty)] else [])
          + (if searchTerm != "" then [Param("name", searchTerm)] else [])
          + (if availableOnly then [Param("availability", "true")] else [])
    ensures Param("availability", "false") !in DoctorParams(Filters(specialty, searchTerm, availableOnly))
  {
  }

  /** The name test of `filteredDoctors`: case-insensitive substring. */
  function NameMatches(term: string): Doctor -> bool {
    (d: Doctor) => Contains(Lower(d.name), Lower(term))
  }

  /** `filteredDoctors` */
  function FilteredDoctors(doctors: seq<Doctor>, term: string): seq<Doctor> {
    Filter(doctors, NameMatches(term))
  }

  /**
   * A doctor is shown exactly when the lower-cased name contains the
   * lower-cased term; with no term every doctor is shown in order, and
   * filtering twice by the same term changes nothing.
   */
  lemma FilteredDoctorsMembers(doctors: seq<Doctor>, term: string, d: Doctor)
    ensures d in FilteredDoctors(doctors, term) <==> d in doctors && Contains(Lower(d.name), Lower(term))
    ensures term == "" ==> FilteredDoctors(doctors, term) == doctors
    ensures FilteredDoctors(FilteredDoctors(doctors, term), term) == FilteredDoctors(doctors, term)
  {
    FilterMembership(doctors, NameMatches(term), d);
    FilterAll(FilteredDoctors(doctors, term), NameMatches(term));
    if term == "" {
      forall x | x in doctors ensures NameMatches(term)(x) {
        ContainsEmpty(Lower(x.name));
      }
      FilterAll(doctors, NameMatches(term));
    }
  }

  const ChatRoute: string := "/chat-with-doctor?room="
  const VideoRoute: string := "/video-call?room="

  class FindDoctorPanel {
    var doctors: seq<Doctor>
    var loading: bool
    var searchTerm: string
    var specialty: string
    var availableOnly: bool
    /** The last page the router was sent to. */
    var route: Option<string>
    /** The users a chat room was requested with, in order. */
    var chatRequests: seq<string>
    /** The doctors a video room was requested with, in order. */
    var videoRequests: seq<string>

    constructor ()
      ensures doctors == [] && loading && searchTerm == "" && specialty == "" && !availableOnly
      ensures route == None && chatRequests == [] && videoRequests == []
    {
      doctors := [];
      loading := true;
      searchTerm := "";
      specialty := "";
      availableOnly := false;
      route := None;
      chatRequests := [];
      videoRequests := [];
    }

    /**
     * `fetchDoctors`: the filters are built field by field and sent; the
     * doctors received replace the list, a failure keeps it, and loading ends
     * either way.
     */
    method FetchDoctors(received: Option<seq<Doctor>>) returns (sent: DoctorFilters)
      modifies this`loading, this`doctors
      ensures sent == Filters(specialty, searchTerm, availableOnly)
      ensures received.Some? ==> doctors == received.value
      ensures received.None? ==> doctors == old(doctors)
      ensures !loading
    {
      loading := true;
      sent := DoctorFilters(None, None, None);
      if specialty != "" && specialty != "all" {
        sent := sent.(specialty := Some(specialty));
      }
      if searchTerm != "" {
        sent := sent.(name := Some(searchTerm));
      }
      if availableOnly {
        sent := sent.(availability := Some(true));
      }
      if received.Some? {
        doctors := received.value;
      }
      loading := false;
    }

    /**
     * `startChat`: a doctor with a chat room already opens it without asking
     * for a new one; otherwise a room is requested and, once created, opened.
     * Loading ends in every case.
     */
    method StartChat(doctor: Doctor, created: Option<string>)
      modifies this`loading, this`route, this`chatRequests
      ensures Truthy(doctor.existingChatRoom) ==>
                route == Some(ChatRoute + doctor.existingChatRoom.value) && chatRequests == old(chatRequests)
      ensures !Truthy(doctor.existingChatRoom) ==> chatRequests == old(chatRequests) + [doctor.id]
      ensures !Truthy(doctor.existingChatRoom) && created.Some? ==> route == Some(ChatRoute + created.value)
      ensures !Truthy(doctor.existingChatRoom) && created.None? ==> route == old(route)
      ensures !loading
    {
      if doctor.existingChatRoom.Some? && doctor.existingChatRoom.value != "" {
        route := Some(ChatRoute + doctor.existingChatRoom.value);
        loading := false;
        return;
      }
      loading := true;
      chatRequests := chatRequests + [doctor.id];
      if created.Some? {
        route := Some(ChatRoute + created.value);
      }
      loading := false;
    }

    /** `startVideoCall`: a room is requested with the doctor and, once created, opened. */
    method StartVideoCall(doctor: Doctor, created: Option<string>)
      modifies this`loading, this`route, this`videoRequests
      ensures videoRequests == old(videoRequests) + [doctor.id]
      ensures created.Some? ==> route == Some(VideoRoute + created.value)
      ensures created.None? ==> route == old(route)
      ensures !loading
    {
      loading := true;
      videoRequests := videoRequests + [doctor.id];
      if created.Some? {
        route := Some(VideoRoute + created.value);
      }
      loading := false;
    }
  }
}
