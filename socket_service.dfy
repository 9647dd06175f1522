/**
 * The client's Socket.IO connection: a socket created at most once and kept
 * in a module variable (and mirrored on `window.socket`) until it is closed,
 * the extraction of the user's id from the stored JSON Web Token, and the
 * helpers that emit events on the socket when there is one.
 *
 * A socket is named by a number chosen by the caller; the connection itself,
 * reconnection and incoming-event notifications are not modelled. Emitting
 * an event is recorded in a log. Base64 and JSON decoding (`atob`,
 * `JSON.parse`) are a function supplied by the caller that yields the claims
 * of a payload or nothing when either step throws.
 */
module SocketService {
  import opened Common
  import opened Text

  // ------------------------------------------------------------------ the user id in a token

  /** The claims read from a token's payload: `sub` (section 4.1.2 of RFC 7519) and `user_id`. */
  datatype Claims = Claims(sub: Option<string>, userId: Option<string>)

  /**
   * `token.split(".")[1]`: the second part of a JWS compact serialization
   * (section 7.1 of RFC 7515); missing when the token has no '.'.
   */
  function PayloadSegment(token: string): Option<string> {
    var parts := Split(token, '.');
    if |parts| >= 2 then Some(parts[1]) else None
  }

  /** The base64url alphabet of section 5 of RFC 4648, with padding. */
  predicate Base64UrlChar(c: char) {
    ('A' <= c <= 'Z') || ('a' <= c <= 'z') || ('0' <= c <= '9') || c == '-' || c == '_' || c == '='
  }

  /** The base64 alphabet of section 4 of RFC 4648, with padding. */
  predicate Base64Char(c: char) {
    ('A' <= c <= 'Z') || ('a' <= c <= 'z') || ('0' <= c <= '9') || c == '+' || c == '/' || c == '='
  }

  /** `.replace(/-/g, "+").replace(/_/g, "/")` */
  function ToStandardAlphabet(s: string): string {
    ReplaceChar(ReplaceChar(s, '-', '+'), '_', '/')
  }

  /** The opposite mapping, from the base64 alphabet to the base64url one. */
  function ToUrlAlphabet(s: string): string {
    ReplaceChar(ReplaceChar(s, '+', '-'), '/', '_')
  }

  /**
   * A base64url text becomes a base64 text of the same length, and mapping
   * it back gives the original text.
   */
  lemma AlphabetRoundTrip(s: string)
    requires forall i :: 0 <= i < |s| ==> Base64UrlChar(s[i])
    ensures |ToStandardAlphabet(s)| == |s|
    ensures forall i :: 0 <= i < |s| ==> Base64Char(ToStandardAlphabet(s)[i])
    ensures ToUrlAlphabet(ToStandardAlphabet(s)) == s
  {
    var t := ToStandardAlphabet(s);
    var u := ToUrlAlphabet(t);
    forall i | 0 <= i < |s| ensures Base64Char(t[i]) && u[i] == s[i] {
      assert Base64UrlChar(s[i]);
    }
  }

  /** The three dot-free parts of a compact serialization: the payload is the middle one. */
  lemma CompactPayload(header: string, payload: string, signature: string)
    requires '.' !in header && '.' !in payload && '.' !in signature
    ensures PayloadSegment(header + "." + payload + "." + signature) == Some(payload)
  {
    var parts := [header, payload, signature];
    assert Join(parts[2..], '.') == signature;
    assert Join(parts[1..], '.') == payload + "." + signature;
    assert Join(parts, '.') == header + "." + payload + "." + signature;
    SplitJoin(parts, '.');
  }

  /** `payload.sub || payload.user_id || null` */
  function ClaimedId(c: Claims): Option<string> {
    if Truthy(c.sub) then c.sub else if Truthy(c.userId) then c.userId else None
  }

  /**
   * `getUserIdFromToken`: a stored `user_id` first; otherwise the claims in
   * the stored access token; nothing when there is no token, when the token
   * has no payload part or when decoding it fails. The id found is never empty.
   */
  function UserIdFromToken(storage: map<string, string>, decode: string -> Option<Claims>): (id: Option<string>)
    ensures id.Some? ==> id.value != ""
    ensures id.Some? ==> Stored(storage, "user_id") || Stored(storage, "access_token")
  {
    if Stored(storage, "user_id") then Some(storage["user_id"])
    else if !Stored(storage, "access_token") then None
    else
      match PayloadSegment(storage["access_token"])
      case None => None
      case Some(segment) =>
        match decode(ToStandardAlphabet(segment))
        case None => None
        case Some(claims) => ClaimedId(claims)
  }

  /** With a stored `user_id` the token and the decoder make no difference. */
  lemma StoredIdWins(storage: map<string, string>, other: map<string, string>,
                     decode: string -> Option<Claims>, otherDecode: string -> Option<Claims>)
    requires Stored(storage, "user_id")
    requires "user_id" in other && other["user_id"] == storage["user_id"]
    ensures UserIdFromToken(storage, decode) == UserIdFromToken(other, otherDecode) == Some(storage["user_id"])
  {
  }

  /** With neither a stored id nor a token there is no id. */
  lemma NoCredentialsNoId(storage: map<string, string>, decode: string -> Option<Claims>)
    requires !Stored(storage, "user_id") && !Stored(storage, "access_token")
    ensures UserIdFromToken(storage, decode) == None
  {
  }

  /**
   * For a well-formed token the id comes from decoding its middle part,
   * mapped to the base64 alphabet: `sub`, else `user_id`, else nothing.
   */
  lemma UserIdFromCompactToken(storage: map<string, string>, decode: string -> Option<Claims>,
                               header: string, payload: string, signature: string)
    requires !Stored(storage, "user_id")
    requires '.' !in header && '.' !in payload && '.' !in signature
    requires "access_token" in storage && storage["access_token"] == header + "." + payload + "." + signature
    ensures decode(ToStandardAlphabet(payload)).None? ==> UserIdFromToken(storage, decode) == None
    ensures decode(ToStandardAlphabet(payload)).Some? ==>
              UserIdFromToken(storage, decode) == ClaimedId(decode(ToStandardAlphabet(payload)).value)
  {
    CompactPayload(header, payload, signature);
  }

  /** A token without a '.' has no payload part, so no id is found in it. */
  lemma NoDotNoId(storage: map<string, string>, decode: string -> Option<Claims>)
    requires !Stored(storage, "user_id") && Stored(storage, "access_token")
    requires '.' !in storage["access_token"]
    ensures UserIdFromToken(storage, decode) == None
  {
    SplitHead(storage["access_token"], '.');
  }

  // ------------------------------------------------------------------ the socket singleton

  /** A socket: its name, the `auth` token and the `user_id` query it was opened with. */
  datatype Socket = Socket(id: nat, auth: Option<string>, userId: Option<string>)

  /** Opaque signalling values (session descriptions and ICE candidates) are passed through as text. */
  type Signal = string

  /** The payloads the helpers emit. */
  datatype Payload =
    | RoomOnly(room: string)
    | UserOnly(userId: string)
    | ChatLine(room: string, message: string, senderId: string, senderName: string)
    | Offer(room: string, offer: Signal, senderId: string)
    | Answer(room: string, answer: Signal, senderId: string)
    | Candidate(room: string, candidate: Signal, senderId: string)
    | RoomUser(room: string, userId: string)

  datatype Emission = Emission(socket: nat, event: string, payload: Payload)

  /** What emitting on the current socket adds to the log: one emission, or none without a socket. */
  function EmitOn(socket: Option<Socket>, event: string, payload: Payload): (log: seq<Emission>)
    ensures socket.None? <==> log == []
    ensures socket.Some? ==> log == [Emission(socket.value.id, event, payload)]
  {
    if socket.Some? then [Emission(socket.value.id, event, payload)] else []
  }

  class SocketClient {
    var storage: map<string, string>
    /** The module variable `socket`. */
    var socket: Option<Socket>
    /** `window.socket` */
    var windowSocket: Option<Socket>
    /** Every event emitted, in order. */
    var emitted: seq<Emission>
    /** The sockets disconnected by `closeSocket`, in order. */
    var disconnected: seq<nat>

    /** The global copy always names the same socket as the module variable. */
    ghost predicate Valid()
      reads this
    {
      windowSocket == socket
    }

    constructor (initial: map<string, string>)
      ensures Valid()
      ensures storage == initial && socket == None && emitted == [] && disconnected == []
    {
      storage := initial;
      socket := None;
      windowSocket := None;
      emitted := [];
      disconnected := [];
    }

    /** The socket `initializeSocket` opens: auth with the stored token, the user id as query. */
    function NewSocket(newId: nat, decode: string -> Option<Claims>): (s: Socket)
      reads this
      ensures s.id == newId
      ensures s.auth.Some? <==> Stored(storage, "access_token")
      ensures s.userId == UserIdFromToken(storage, decode)
    {
      Socket(newId, if Stored(storage, "access_token") then Some(storage["access_token"]) else None,
             UserIdFromToken(storage, decode))
    }

    /**
     * `initializeSocket`: an existing socket is returned as it is; otherwise a
     * new one is opened with the name `newId` and kept in both places.
     */
    method InitializeSocket(newId: nat, decode: string -> Option<Claims>) returns (s: Socket)
      requires Valid()
      modifies this`socket, this`windowSocket
      ensures Valid()
      ensures old(socket).Some? ==> s == old(socket).value && socket == old(socket)
      ensures old(socket).None? ==> s == NewSocket(newId, decode) && socket == Some(s)
    {
      if socket.None? {
        var token := if "access_token" in storage && storage["access_token"] != "" then Some(storage["access_token"]) else None;
        var userId := UserIdFromToken(storage, decode);
        socket := Some(Socket(newId, token, userId));
        windowSocket := socket;
      }
      s := socket.value;
    }

    /** `getSocket`: the existing socket, or a new one when there is none. */
    method GetSocket(newId: nat, decode: string -> Option<Claims>) returns (s: Socket)
      requires Valid()
      modifies this`socket, this`windowSocket
      ensures Valid()
      ensures old(socket).Some? ==> s == old(socket).value && socket == old(socket)
      ensures old(socket).None? ==> s == NewSocket(newId, decode) && socket == Some(s)
    {
      if socket.None? {
        s := InitializeSocket(newId, decode);
      } else {
        s := socket.value;
      }
    }

    /** Opening twice gives the same socket, whatever name the second call offers. */
    method InitializeTwice(first: nat, second: nat, decode: string -> Option<Claims>) returns (a: Socket, b: Socket)
      requires Valid()
      modifies this`socket, this`windowSocket
      ensures Valid()
      ensures a == b && socket == Some(a)
    {
      a := InitializeSocket(first, decode);
      b := InitializeSocket(second, decode);
    }

    /** `closeSocket`: disconnect and forget the socket; nothing happens without one. */
    method CloseSocket()
      requires Valid()
      modifies this`socket, this`windowSocket, this`disconnected
      ensures Valid()
      ensures socket == None
      ensures old(socket).Some? ==> disconnected == old(disconnected) + [old(socket).value.id]
      ensures old(socket).None? ==> disconnected == old(disconnected) && windowSocket == old(windowSocket)
    {
      if socket.Some? {
        disconnected := disconnected + [socket.value.id];
        socket := None;
        windowSocket := None;
      }
    }

    /**
     * The "connect" handler of socket `s`: announce the user id `s` was opened
     * with, on the current socket; nothing without an id, and nothing once the
     * socket is gone (the handler would throw).
     */
    method OnConnect(s: Socket)
      modifies this`emitted
      ensures Truthy(s.userId) ==> emitted == old(emitted) + EmitOn(socket, "user_connected", UserOnly(s.userId.value))
      ensures !Truthy(s.userId) ==> emitted == old(emitted)
    {
      if s.userId.Some? && s.userId.value != "" {
        Emit("user_connected", UserOnly(s.userId.value));
      }
    }

    method Emit(event: string, payload: Payload)
      modifies this`emitted
      ensures emitted == old(emitted) + EmitOn(socket, event, payload)
    {
      if socket.Some? {
        emitted := emitted + [Emission(socket.value.id, event, payload)];
      }
    }

    /** `joinRoom` */
    method JoinRoom(roomId: string)
      modifies this`emitted
      ensures emitted == old(emitted) + EmitOn(socket, "join", RoomOnly(roomId))
    {
      Emit("join", RoomOnly(roomId));
    }

    /** `leaveRoom` */
    method LeaveRoom(roomId: string)
      modifies this`emitted
      ensures emitted == old(emitted) + EmitOn(socket, "leave", RoomOnly(roomId))
    {
      Emit("leave", RoomOnly(roomId));
    }

    /** `sendMessage` */
    method SendMessage(roomId: string, message: string, senderId: string, senderName: string)
      modifies this`emitted
      ensures emitted == old(emitted) + EmitOn(socket, "message", ChatLine(roomId, message, senderId, senderName))
    {
      Emit("message", ChatLine(roomId, message, senderId, senderName));
    }

    /** `sendVideoOffer` */
    method SendVideoOffer(roomId: string, offer: Signal, senderId: string)
      modifies this`emitted
      ensures emitted == old(emitted) + EmitOn(socket, "video-offer", Offer(roomId, offer, senderId))
    {
      Emit("video-offer", Offer(roomId, offer, senderId));
    }

    /** `sendVideoAnswer` */
    method SendVideoAnswer(roomId: string, answer: Signal, senderId: string)
      modifies this`emitted
      ensures emitted == old(emitted) + EmitOn(socket, "video-answer", Answer(roomId, answer, senderId))
    {
      Emit("video-answer", Answer(roomId, answer, senderId));
    }

    /** `sendIceCandidate` */
    method SendIceCandidate(roomId: string, candidate: Signal, senderId: string)
      modifies this`emitted
      ensures emitted == old(emitted) + EmitOn(socket, "ice-candidate", Candidate(roomId, candidate, senderId))
    {
      Emit("ice-candidate", Candidate(roomId, candidate, senderId));
    }

    /** `leaveVideoRoom` */
    method LeaveVideoRoom(roomId: string, userId: string)
      modifies this`emitted
      ensures emitted == old(emitted) + EmitOn(socket, "leave-room", RoomUser(roomId, userId))
    {
      Emit("leave-room", RoomUser(roomId, userId));
    }
  }
}
