/**
 * The client's HTTP layer: the request interceptor that attaches the stored
 * access token as a Bearer credential (section 2.1 of RFC 6750), the response
 * interceptor that maps transport failures to messages and refreshes the
 * token once on a 401, the doctor-listing URL, small request bodies, and the
 * effects of login, registration and logout on the browser's storage.
 *
 * `localStorage` is a map from keys to strings. The network is not modelled:
 * the answer of the token-refresh endpoint is a function of the Authorization
 * header sent, and the outcome of other calls is a parameter.
 */
module ApiService {
  import opened Common
  import opened Seqs
  import opened FormUrlEncoding
  import opened BackendModel

  const TimeoutMessage: string := "The server is taking too long to respond. Please try again later."
  const NetworkMessage: string := "Network error. Please check your connection or the server might be down."
  const NoRefreshMessage: string := "No refresh token available"

  /** The parts of an axios request config the interceptors read or write. */
  datatype RequestConfig = RequestConfig(url: string, headers: map<string, string>, retry: bool)

  /** A rejected request: an error code, the HTTP status of the response if one came back, and the request. */
  datatype HttpError = HttpError(code: Option<string>, status: Option<int>, config: RequestConfig)

  /** What the refresh endpoint answers. */
  datatype RefreshReply = Refreshed(accessToken: string) | RefreshFailed(reason: string)

  /** What the response interceptor does with an error. */
  datatype ErrorOutcome =
    | RejectWith(message: string)      // a new Error with this message
    | RejectAsIs(error: HttpError)     // the error passes through
    | Resend(config: RequestConfig)    // the original request is sent again, outside the interceptors

  /** `Bearer <token>` */
  function Bearer(token: string): string { "Bearer " + token }

  /** The keys removed when the refresh fails. */
  const CredentialKeys: set<string> := {"access_token", "refresh_token", "user_id"}

  /** `login`, `register` and `getCurrentUser` keep the user's id and data when the reply has an id. */
  datatype UserReply = UserReply(id: Option<string>, json: string)

  class ApiClient {
    var storage: map<string, string>
    /** Set when the page is sent to the login screen. */
    var location: Option<string>

    constructor (initial: map<string, string>)
      ensures storage == initial && location == None
    {
      storage := initial;
      location := None;
    }

    /** The request interceptor: the header is set exactly when a token is stored, and nothing else changes. */
    method AuthorizeRequest(config: RequestConfig) returns (r: RequestConfig)
      ensures Stored(storage, "access_token") ==>
                r == config.(headers := config.headers["Authorization" := Bearer(storage["access_token"])])
      ensures !Stored(storage, "access_token") ==> r == config
      ensures r.url == config.url && r.retry == config.retry
      ensures forall h :: h != "Authorization" ==> (h in r.headers <==> h in config.headers)
    {
      r := config;
      if "access_token" in storage && storage["access_token"] != "" {
        var token := storage["access_token"];
        r := r.(headers := r.headers["Authorization" := Bearer(token)]);
      }
    }

    /**
     * The response interceptor's error path. Timeouts and errors without a
     * response are rejected with fixed messages first; a 401 on a request not
     * yet retried marks it retried and tries one refresh with the stored
     * refresh token; everything else is rejected unchanged. The retried
     * request goes out through plain axios, so the interceptor never sees it
     * again, and its own failure does not clear the storage.
     */
    method HandleResponseError(err: HttpError, refresh: string -> RefreshReply) returns (o: ErrorOutcome)
      modifies this
      ensures err.code == Some("ECONNABORTED") ==>
                o == RejectWith(TimeoutMessage) && storage == old(storage) && location == old(location)
      ensures err.code != Some("ECONNABORTED") && err.status.None? ==>
                o == RejectWith(NetworkMessage) && storage == old(storage) && location == old(location)
      ensures err.code != Some("ECONNABORTED") && err.status.Some? && (err.status.value != 401 || err.config.retry) ==>
                o == RejectAsIs(err) && storage == old(storage) && location == old(location)
      ensures err.code != Some("ECONNABORTED") && err.status == Some(401) && !err.config.retry ==>
                if !Stored(old(storage), "refresh_token") then
                  && o == RejectWith(NoRefreshMessage)
                  && storage == old(storage) - CredentialKeys && location == Some("/login")
                else
                  match refresh(Bearer(old(storage)["refresh_token"]))
                  case Refreshed(token) =>
                    && storage == old(storage)["access_token" := token] && location == old(location)
                    && o == Resend(err.config.(retry := true,
                                               headers := err.config.headers["Authorization" := Bearer(token)]))
                  case RefreshFailed(reason) =>
                    && o == RejectWith(reason)
                    && storage == old(storage) - CredentialKeys && location == Some("/login")
      ensures o.Resend? ==> o.config.retry
    {
      if err.code == Some("ECONNABORTED") {
        return RejectWith(TimeoutMessage);
      }
      if err.status.None? {
        return RejectWith(NetworkMessage);
      }
      var original := err.config;
      if err.status.value == 401 && !original.retry {
        original := original.(retry := true);
        var failure: string;
        if !("refresh_token" in storage && storage["refresh_token"] != "") {
          failure := NoRefreshMessage;
        } else {
          match refresh(Bearer(storage["refresh_token"])) {
            case Refreshed(token) =>
              storage := storage["access_token" := token];
              original := original.(headers := original.headers["Authorization" := Bearer(token)]);
              return Resend(original);
            case RefreshFailed(reason) =>
              failure := reason;
          }
        }
        storage := storage - {"access_token"};
        storage := storage - {"refresh_token"};
        storage := storage - {"user_id"};
        location := Some("/login");
        return RejectWith(failure);
      }
      o := RejectAsIs(err);
    }

    /** `login`, `register`, `getCurrentUser`: on a reply with a truthy id, keep the id and the reply. */
    method RememberUser(reply: Option<UserReply>)
      modifies this`storage
      ensures reply.Some? && Truthy(reply.value.id) ==>
                storage == old(storage)["user_id" := reply.value.id.value]["user_data" := reply.value.json]
      ensures !(reply.Some? && Truthy(reply.value.id)) ==> storage == old(storage)
    {
      if reply.Some? && reply.value.id.Some? && reply.value.id.value != "" {
        storage := storage["user_id" := reply.value.id.value];
        storage := storage["user_data" := reply.value.json];
      }
    }

    /**
     * `logout`: after the server's reply the user's id and data are dropped;
     * the access and refresh tokens stay in storage. A failed call changes nothing.
     */
    method Logout(succeeded: bool)
      modifies this`storage
      ensures succeeded ==> storage == old(storage) - {"user_id", "user_data"}
      ensures !succeeded ==> storage == old(storage)
      ensures forall k :: k != "user_id" && k != "user_data" && k in old(storage) ==>
                k in storage && storage[k] == old(storage)[k]
    {
      if succeeded {
        storage := storage - {"user_id"};
        storage := storage - {"user_data"};
      }
    }
  }

  // ------------------------------------------------------------------ the doctor listing URL

  /** The optional filters of `getDoctors`. */
  datatype DoctorFilters = DoctorFilters(specialty: Option<string>, name: Option<string>, availability: Option<bool>)

  /** The query parameters, in the order they are appended. */
  function DoctorParams(f: DoctorFilters): (ps: seq<Param>)
    ensures |ps| <= 3
  {
    (if Truthy(f.specialty) then [Param("specialty", f.specialty.value)] else [])
    + (if Truthy(f.name) then [Param("name", f.name.value)] else [])
    + (if f.availability.Some? then [Param("availability", BoolText(f.availability.value))] else [])
  }

  const DoctorsPath: string := "/api/doctors"

  /** `params.toString()`, empty exactly when there are no parameters. */
  function QueryString(params: seq<Param>): (q: string)
    ensures q == Serialize(params)
    ensures q == "" <==> params == []
  {
    SerializeEmptyIff(params);
    Serialize(params)
  }

  /** `getDoctors`: the path, and '?' with the serialized parameters when there are any. */
  method GetDoctorsUrl(filters: Option<DoctorFilters>) returns (url: string)
    ensures filters.None? || DoctorParams(filters.value) == [] ==> url == DoctorsPath
    ensures filters.Some? && DoctorParams(filters.value) != [] ==>
              url == DoctorsPath + "?" + Serialize(DoctorParams(filters.value))
  {
    url := DoctorsPath;
    if filters.Some? {
      var f := filters.value;
      var params: seq<Param> := [];
      if f.specialty.Some? && f.specialty.value != "" {
        params := params + [Param("specialty", f.specialty.value)];
      }
      if f.name.Some? && f.name.value != "" {
        params := params + [Param("name", f.name.value)];
      }
      if f.availability.Some? {
        params := params + [Param("availability", if f.availability.value then "true" else "false")];
      }
      assert params == DoctorParams(f);
      var query := QueryString(params);
      if query != "" {
        url := url + "?" + query;
      }
    }
  }

  /**
   * The parameters arrive in the order specialty, name, availability; a
   * defined availability is always sent, as "true" or "false", and an empty
   * specialty or name is never sent.
   */
  lemma DoctorParamsOrder(f: DoctorFilters)
    ensures var ps := DoctorParams(f);
      && (f.availability.Some? ==> ps[|ps| - 1] == Param("availability", if f.availability.value then "true" else "false"))
      && (f.availability.None? ==> forall p :: p in ps ==> p.name != "availability")
      && (Truthy(f.specialty) ==> ps[0] == Param("specialty", f.specialty.value))
      && (!Truthy(f.specialty) ==> forall p :: p in ps ==> p.name != "specialty")
      && (Truthy(f.name) ==> Param("name", f.name.value) in ps)
      && (!Truthy(f.name) ==> forall p :: p in ps ==> p.name != "name")
  {
  }

  /** What the server reads from the URL: the same parameters, in the same order, as UTF-8 bytes. */
  lemma DoctorUrlRoundTrip(f: DoctorFilters)
    ensures Parse(Serialize(DoctorParams(f))) == MapSeq(DoctorParams(f), AsRaw)
  {
    ParseSerialize(DoctorParams(f));
  }

  // ------------------------------------------------------------------ request bodies and replies

  /** `createVideoRoom`: `{doctor_id}` only when a doctor id is given. */
  function CreateVideoRoomBody(doctorId: Option<string>): (body: map<string, string>)
    ensures "doctor_id" in body <==> Truthy(doctorId)
    ensures "doctor_id" in body ==> body["doctor_id"] == doctorId.value
    ensures body.Keys <= {"doctor_id"}
  {
    if Truthy(doctorId) then map["doctor_id" := doctorId.value] else map[]
  }

  /** `respondToVideoCall`: the answer sent for the caller's choice. */
  function RespondBody(accept: bool): (body: map<string, string>)
    ensures body.Keys == {"response"}
    ensures body["response"] == "accept" <==> accept
  {
    map["response" := if accept then "accept" else "reject"]
  }

  /** The body the client sends is always one of the two answers the server takes. */
  lemma RespondBodyUnderstood(accept: bool)
    ensures var answer := Some(RespondBody(accept)["response"]).GetOr("accept");
      answer == "accept" || answer == "reject"
  {
  }

  /** The reply of the room check, when the call succeeds. */
  datatype RoomCheck = RoomCheck(exists_: Option<bool>, active: Option<bool>)

  /** `checkVideoRoom`: `exists && active`, and false when the call fails. */
  function CheckVideoRoom(reply: Option<RoomCheck>): (ok: bool)
    ensures ok <==> reply.Some? && reply.value.exists_ == Some(true) && reply.value.active == Some(true)
  {
    match reply
    case None => false
    case Some(c) => c.exists_.GetOr(false) && c.active.GetOr(false)
  }

  /** `register`: the body carries a specialty only for a doctor who named one. */
  function RegisterBody(name: string, email: string, password: string, role: string,
                        specialty: Option<string>): (body: map<string, string>)
    ensures body.Keys == {"name", "email", "password", "role"} + (if role == "doctor" && Truthy(specialty) then {"specialty"} else {})
    ensures "specialty" in body <==> role == "doctor" && Truthy(specialty)
    ensures body["name"] == name && body["email"] == email && body["password"] == password && body["role"] == role
    ensures "specialty" in body ==> body["specialty"] == specialty.value
  {
    var base := map["name" := name, "email" := email, "password" := password, "role" := role];
    if role == "doctor" && Truthy(specialty) then base["specialty" := specialty.value] else base
  }
}
