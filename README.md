# Telehealth store and client state, modelled in Dafny

This project models the core of a telehealth application:

- a Flask backend that keeps users, video rooms, chat messages and online sessions in module-level dictionaries;
- the Next.js client around it.

**Backend** (`backend/app.py`). The model is one `Backend` object, with the dictionaries as fields. Each route and socket handler is a method. A method either refuses with a status code and leaves the store alone, or changes exactly the fields its `modifies` clause names. The video-room lifecycle is expressed as pure functions on a room record:

- creation (a named doctor, or auto-assignment of the first available and online doctor);
- join (a pending call becomes connected);
- accept and reject;
- end;
- expiry after thirty minutes.

Every handler keeps each room well formed:

- the creator and the counterpart are its two participants, and they are its patient and its doctor;
- a room is active exactly while it has no end time;
- a rejected call is never active.

The doctor, room and chat listings are loops that append to a result list. Each is proved equal to "keep the elements that pass a test, in dictionary order, and project them". Separate lemmas characterise what each listing contains.

**Client HTTP layer** (`med-ai/lib/api-service.ts`):

- the request interceptor adds a Bearer credential (section 2.1 of RFC 6750);
- the response interceptor maps transport failures to messages, and refreshes the token at most once on a 401;
- the doctor-listing URL is serialised as `application/x-www-form-urlencoded`, following section 5 of the WHATWG URL Standard;
- the request bodies are built;
- login and logout change `localStorage`.

**Socket client** (`med-ai/lib/socket-service.tsx`):

- a socket singleton, mirrored on `window.socket`;
- extraction of the user id from a stored JSON Web Token:
  - the payload is the middle part of the compact serialization (section 7.1 of RFC 7515);
  - the base64url alphabet is mapped to base64 (sections 5 and 4 of RFC 4648);
  - the id is the `sub` claim (section 4.1.2 of RFC 7519), else `user_id`;
- the emit helpers, which do nothing without a socket.

**Pages and context:**

- the chat page's message store, its mark-read rule, and its contact search and tabs;
- the find-doctor panel's filters and routes;
- the dashboard's report labels and upcoming appointments;
- the mock authentication context, whose user survives a reload through `localStorage`.

Inputs the program takes from its environment are parameters of the model:

- the JWT identity (an email);
- generated ids (`uuid`, `secrets.token_hex`, `Math.random`, `Date.now`);
- the clock, in whole seconds;
- the outcome of network calls;
- `JSON.stringify`/`JSON.parse` and `atob`.

Files:

| file | module | models |
|---|---|---|
| common.dfy | Common | Option, Reply (status code with body or error), JavaScript truthiness of strings |
| seqs.dfy | Seqs | filter, map and count on sequences, with their algebra |
| text.dfy | Text | substring, ASCII lower-casing, ECMAScript `trim`, `split`/`join`, character replacement |
| ordered_maps.dfy | OrderedMaps | Python dictionaries with insertion order |
| backend_model.dfy | BackendModel | records of the store; room lifecycle, registration, login and creation decisions |
| listings.dfy | Listings | the tests and projections of the listing endpoints |
| backend_store.dfy | BackendStore | the store and its handlers |
| diagnosis.dfy | Diagnosis | `allowed_file`, `determine_recommended_models` |
| form_urlencoded.dfy | FormUrlEncoding | `URLSearchParams` serialization and parsing |
| api_service.dfy | ApiService | interceptors, the doctor URL, bodies, storage effects |
| socket_service.dfy | SocketService | socket singleton, user id from a token, emit helpers |
| chat_page.dfy | ChatPage | chat page state |
| find_doctor.dfy | FindDoctor | find-doctor panel |
| dashboard.dfy | Dashboard | dashboard labels and appointments |
| auth_context.dfy | AuthContext | mock authentication context |

## Model

| member | source | states |
|---|---|---|
| BackendStore.Backend.constructor | backend/app.py:126-145 | the store starts with the two seeded accounts in order and everything else empty |
| BackendStore.Backend.AddSampleUsers | backend/app.py:1554-1591 | each of the three sample accounts is added only when its email is not registered, in order |
| BackendStore.PutIfAbsent | backend/app.py:1554-1591 | an already registered email leaves the dictionary unchanged; otherwise the account is added |
| BackendStore.Backend.TokenRevoked | backend/app.py:149-151 | the blocklist test: a token id is revoked exactly when it is on the blocklist (the handlers take the identity as a parameter and do not consult it) |
| BackendModel.RegistrationAccepted | backend/app.py:164-176 | registration passes exactly when: all three fields are truthy; the email has '@' and '.'; the password has at least 8 characters; the email is new |
| BackendStore.Backend.Register | backend/app.py:155-210 | a failed check returns 400 with the first failing check's message and leaves `users` unchanged; otherwise the new account, with role defaulting to patient, goes at the end of `users` and 201 is returned |
| BackendModel.NewAccount | backend/app.py:179-196 | the stored account has the given email, name and role, and the id `role-` plus 8 hex digits; it is online; a doctor is available, with a missing specialty defaulting to General Medicine, a `null` one stored as None and a sent one kept; others have neither |
| BackendModel.RegisterTwiceRefused | backend/app.py:175-176 | registering the same accepted data again is refused with "Email already registered" |
| BackendModel.RegisteredCanLogIn | backend/app.py:240-245 | a new account logs in with its own password and is refused with 401 for any other non-empty password |
| BackendStore.Backend.Logout | backend/app.py:214-230 | only the token id is added to the blocklist; a known caller is marked offline; the reply is 200 |
| BackendStore.Backend.Login | backend/app.py:235-267 | missing fields give 400, unknown email or wrong password 401, and `users` is unchanged; otherwise the account goes online in place and is returned |
| BackendStore.Backend.GetUser | backend/app.py:480-492 | the caller's account exactly when the caller is registered; otherwise 404 |
| BackendStore.Backend.GetDoctors | backend/app.py:282-331 | unknown caller: 404; otherwise the loop's list equals the filtered and projected doctors in `users` order, each carrying its stored specialty (`null` included) |
| BackendModel.ViewOf | backend/app.py:321-329 | a doctor's entry has the doctor's id and the stored specialty unchanged (a `null` one stays `null`, since every doctor record has the key); its chat room is one both users share, and none exactly when no room is shared |
| BackendModel.RegisteredDoctorListed | backend/app.py:161 | a doctor registered without `specialty` is listed as General Medicine, one registered with `null` is listed with `null`, and one registered with a value is listed with that value |
| BackendStore.CollectDoctors | backend/app.py:295-329 | the loop over the users builds exactly the doctor listing for the filters, in `users` order, with the stored specialty passed through |
| Listings.DoctorListingMembers | backend/app.py:296-329 | an entry is listed exactly when it is the view of a doctor passing every given filter |
| Listings.DoctorListingUnfiltered | backend/app.py:296-310 | without filters every doctor is listed and nobody else |
| BackendModel.SharedChatRoom | backend/app.py:313-318 | the room found is shared by the caller and the doctor and no earlier room in `chat_rooms` is; none means none is shared |
| BackendModel.FirstShared | backend/app.py:313-318 | the position found holds a room both users take part in, no earlier room does, and None means no room does |
| BackendStore.Backend.SearchDoctors | backend/app.py:336-381 | unknown caller: 404; otherwise the loop's list equals the search's filtered and projected doctors, each carrying its stored specialty (`null` included) |
| BackendStore.CollectMatchingDoctors | backend/app.py:349-379 | the loop over the users builds exactly the search result for query, specialty and availability, with the stored specialty passed through |
| BackendModel.SearchAgreesWithListing | backend/app.py:345-356 | with the query used as the name filter the search test and the listing test agree, for every user |
| Listings.SearchIsListing | backend/app.py:336-381 | searching by a name returns the same list as listing with that name filter |
| BackendModel.ListingAvailabilityTrue | backend/app.py:308-310 | with `availability=true`, in any letter case, only available doctors pass |
| BackendStore.Backend.UpdateDoctorAvailability | backend/app.py:446-473 | refusals: unknown caller 404, non-doctor 403, missing or null value 400; a doctor's availability becomes the Python truth value sent, and nothing else changes |
| BackendModel.FirstWithId | backend/app.py:647-651 | the position found holds the first user with the id and role; none means no user matches |
| BackendModel.AutoAssign | backend/app.py:663-672 | the doctor assigned is available and online, and no earlier user is; none means no user is |
| BackendModel.AutoAssignIsHead | backend/app.py:663-672 | the assigned doctor is the head of the `available_doctors` comprehension, and none is assigned exactly when it is empty |
| BackendModel.CreationAutoAssigns | backend/app.py:661-672 | a patient without a doctor id gets the first available online doctor, or 404 when there is none |
| BackendModel.CreationPlanSound | backend/app.py:643-759 | a patient's room goes to an available, online doctor in `users`; a doctor's goes to a patient; only other roles fall through the handler |
| BackendModel.RoomFor | backend/app.py:675-686 | the stored room is active and well formed; participants are `[creator, counterpart]`; patient and doctor are assigned by role; the call status is as given |
| BackendStore.Backend.CreateVideoRoom | backend/app.py:630-759 | unknown caller: 404; refused plans give their code and message; a role other than patient or doctor gives 500; every refusal leaves the rooms unchanged; otherwise a pending room is stored and 201 returned; a patient's reply card carries the doctor's stored specialty, `null` included |
| BackendModel.CallPlan | backend/app.py:385-423 | a direct call opens only for a patient calling an existing, available doctor with that id |
| BackendModel.CallPlanIgnoresStatus | backend/app.py:396-407 | an available but offline doctor can be called directly, while room creation refuses with "Doctor is currently offline" |
| BackendStore.Backend.CallSpecificDoctor | backend/app.py:385-441 | refusals leave the rooms unchanged; otherwise a room without a call status is stored and 201 returned, its card carrying the doctor's stored specialty, `null` included |
| BackendStore.RoomAccessGranted | backend/app.py:767-780 | room access is granted exactly to a known participant of a known room that is active, when activity is required |
| BackendModel.JoinedRoom | backend/app.py:782-784 | joining moves a pending call to connected, leaves any other call status and every other field alone, and keeps the room well formed |
| BackendModel.JoinSettles | backend/app.py:782-784 | after a join no call is pending, a second join changes nothing, and an accepted call stays accepted when joined |
| BackendStore.Backend.JoinVideoRoom | backend/app.py:763-824 | refusal order: 404 unknown caller, 404 unknown room, 400 inactive, 403 non-participant, each with the rooms unchanged; otherwise only the joined room changes |
| BackendStore.ClosedRoomRefusesJoin | backend/app.py:775-776 | a rejected, ended or expired room refuses every later join with 400 "Room is no longer active" |
| BackendModel.KnownParticipants | backend/app.py:786-801 | exactly the room's participant ids that some user has are listed, in participant order, each described from a user with that id |
| BackendModel.AcceptedRoom | backend/app.py:848-849 | accepting sets the call status to accepted, changes no other field, and keeps the room well formed |
| BackendModel.RejectedRoom | backend/app.py:867-872 | rejecting ends the room now: inactive, ended by the caller, call status rejected, reason naming the caller; no other field changes |
| BackendStore.Backend.RespondToVideoCall | backend/app.py:828-891 | the reply is accept, reject, or 400 for any other answer; a missing answer means accept and a `null` one is refused; 400 and the access refusals leave the rooms unchanged |
| BackendModel.EndedRoom | backend/app.py:920-931 | ending makes the room inactive now, records who ended it and the reason as given, keeps the call status, and replaces follow-up and notes only when the new ones are truthy; no other field changes |
| BackendStore.Backend.EndVideoRoom | backend/app.py:895-955 | refusals leave the rooms unchanged; otherwise only this room is ended, with a missing reason defaulting to one naming the caller and a `null` reason stored as None |
| BackendModel.ExpiredIff | backend/app.py:1086-1093 | expiry changes a room exactly when it is active and older than 1800 seconds; it is then inactive and ended now |
| BackendModel.ExpiredSettles | backend/app.py:1086-1093 | after expiry no room is stale, and a second expiry at the same time changes nothing |
| BackendStore.ExpireOne | backend/app.py:1086-1093 | expiring one room keeps every room well formed and leaves all other rooms and the key order alone |
| BackendStore.Backend.CleanupStaleVideoRooms | backend/app.py:1084-1100 | every room becomes its expiry at `now`; no room is added, removed or reordered |
| BackendStore.ExpireStep | backend/app.py:1088-1093 | one loop step keeps the rooms before it expired and the rooms after it untouched |
| BackendStore.Backend.GetVideoRooms | backend/app.py:959-990 | unknown caller: 404; otherwise the loop's list is the caller's active rooms in order, each with the other participant |
| BackendStore.CollectActiveRooms | backend/app.py:966-988 | the loop over the rooms builds exactly the caller's active rooms in order, each with its summary |
| BackendModel.OtherParticipant | backend/app.py:971-972 | the other participant is someone else in the room; there is none exactly when everyone is the caller |
| BackendModel.ProjectById | backend/app.py:974-982 | the user described has the id asked for; none means there is no id or no such user |
| Listings.ActiveOrHistory | backend/app.py:959-1031 | a well-formed room of the user appears in the active list while active, and in the history once it has ended |
| Listings.HistoryMembers | backend/app.py:1003-1021 | the history holds exactly the user's ended rooms with a non-zero end time |
| BackendModel.SortByStartDesc | backend/app.py:1028-1029 | the sorted history is newest first and a permutation of the entries |
| BackendModel.SortByStartDescStable | backend/app.py:1028-1029 | the sort is stable, as Python's `sort(reverse=True)` is: for every start time, the entries that started then keep the order they had in the history list |
| BackendModel.InsertByStart | backend/app.py:1028-1029 | the entry goes right after every entry that started at or after it and before the later ones, so equal starts keep their order; the list stays newest first and gains exactly that entry |
| BackendModel.InsertPos | backend/app.py:1028-1029 | the position is past every entry that started no later than the new one and at the first one that started earlier |
| BackendModel.InsertSplitSorted | backend/app.py:1028-1029 | putting the entry at that position keeps a newest-first list newest first |
| BackendModel.InsertSplitContents | backend/app.py:1028-1029 | putting the entry at that position adds exactly that entry |
| BackendStore.Backend.GetVideoHistory | backend/app.py:994-1031 | unknown caller: 404; otherwise the caller's ended rooms, newest first |
| BackendStore.CollectHistory | backend/app.py:1001-1026 | the loop over the rooms builds exactly the caller's ended rooms in order, each as a history entry |
| BackendStore.Backend.HandleMessage | backend/app.py:603-626 | exactly one unread message goes at the end of the room's list, which is created when absent; other rooms are unchanged |
| Listings.UnreadAfterMessage | backend/app.py:541 | a new message adds one to every user's unread count except its sender's |
| BackendStore.Backend.GetChatHistory | backend/app.py:497-510 | unknown caller: 404; a member of the room gets its messages (empty when there are none); anyone else gets 403 |
| BackendStore.Backend.GetChatRooms | backend/app.py:514-544 | unknown caller: 404; otherwise the loop's list is the caller's rooms in order, with last message and unread count |
| BackendStore.CollectChatRooms | backend/app.py:521-542 | the loop over the rooms builds exactly the caller's rooms in order, with last message and unread count |
| Listings.ChatRoomsMembers | backend/app.py:521-541 | one entry appears for each chat room the user belongs to, and for no other |
| BackendStore.Backend.HandleUserConnected | backend/app.py:1041-1064 | a truthy id of a known user sets that user online and records the session; otherwise nothing changes |
| BackendStore.Backend.HandleDisconnect | backend/app.py:552-571 | a tracked session's user (if still known) goes offline and the session is forgotten; an untracked session changes nothing |
| Diagnosis.AllowedFileIff | backend/app.py:1145-1146 | a file is accepted exactly when its name is some name, a dot and a dot-free extension lower-casing to png, jpg or jpeg |
| Diagnosis.SplitAtLastDot | backend/app.py:1146 | the extension of `name.ext` is `ext` when `ext` has no dot |
| Diagnosis.DetermineRecommendedModels | backend/app.py:1529-1553 | the two loops compute the mentioned models, or the first three when none is mentioned |
| Diagnosis.MentionedModels | backend/app.py:1533-1540 | the first loop's result is the models whose display name occurs in the text, in `MODELS` order |
| Diagnosis.FirstModels | backend/app.py:1543-1551 | the counter loop's result is the first `n` models |
| Diagnosis.RecommendedMembers | backend/app.py:1529-1553 | a model is recommended exactly when its name is mentioned, or, if none is mentioned, when it is among the first three |
| Diagnosis.RecommendedFromMembers | backend/app.py:1529-1553 | the same choice over any list of at least three models: mentioned ones, else the first three |
| Diagnosis.RecommendedCount | backend/app.py:1529-1553 | between one and six models are recommended |
| ApiService.ApiClient.AuthorizeRequest | med-ai/lib/api-service.ts:17-24 | the Authorization header is `Bearer <token>` exactly when a token is stored; otherwise the config is unchanged |
| ApiService.ApiClient.HandleResponseError | med-ai/lib/api-service.ts:32-88 | timeout and no-response errors get fixed messages first; a 401 not yet retried is marked retried and refreshed once; success stores the token and resends with the new header |
| ApiService.ApiClient.RememberUser | med-ai/lib/api-service.ts:185-200 | a reply with a truthy id stores `user_id` and `user_data`; any other reply changes nothing |
| ApiService.ApiClient.Logout | med-ai/lib/api-service.ts:224-237 | a successful logout removes only `user_id` and `user_data`; every other key, tokens included, keeps its value |
| ApiService.GetDoctorsUrl | med-ai/lib/api-service.ts:384-396 | the URL is the bare path when there are no parameters, else the path, '?' and the serialized parameters |
| ApiService.DoctorParamsOrder | med-ai/lib/api-service.ts:388-391 | the order is specialty, name, availability; a defined availability is sent as "true" or "false"; an empty specialty or name is not sent |
| ApiService.QueryString | med-ai/lib/api-service.ts:393-395 | the serialization is empty exactly when there are no parameters |
| FormUrlEncoding.ParseSerialize | med-ai/lib/api-service.ts:386-396 | parsing the serialized parameters gives back every name and value (as UTF-8 bytes), in order |
| FormUrlEncoding.DecodeEncode | med-ai/lib/api-service.ts:386-396 | percent-decoding undoes the form encoding of any byte string |
| ApiService.DoctorUrlRoundTrip | med-ai/lib/api-service.ts:386-396 | the server reads back exactly the filters sent, in order |
| ApiService.CreateVideoRoomBody | med-ai/lib/api-service.ts:423 | the body has `doctor_id` exactly when a non-empty doctor id is given, and holds nothing else |
| ApiService.RespondBody | med-ai/lib/api-service.ts:464-468 | the body's only field `response` is "accept" exactly when accepting, else "reject" |
| ApiService.CheckVideoRoom | med-ai/lib/api-service.ts:453-461 | the check is true exactly when the call succeeded and both `exists` and `active` are true |
| ApiService.RegisterBody | med-ai/lib/api-service.ts:202-206 | the body has exactly name, email, password and role with the given values, plus a specialty, with its value, exactly for a doctor who named one |
| SocketService.UserIdFromToken | med-ai/lib/socket-service.tsx:94-114 | an id found is never empty and comes from a stored `user_id` or access token |
| SocketService.StoredIdWins | med-ai/lib/socket-service.tsx:97-98 | with a stored `user_id`, the token and the decoder make no difference |
| SocketService.NoCredentialsNoId | med-ai/lib/socket-service.tsx:101-102 | with neither a stored id nor a token there is no id |
| SocketService.UserIdFromCompactToken | med-ai/lib/socket-service.tsx:105-110 | for a three-part token the id is `sub`, else `user_id`, of the decoded middle part in the base64 alphabet; nothing when decoding fails |
| SocketService.NoDotNoId | med-ai/lib/socket-service.tsx:105-113 | a token without '.' has no payload part and yields no id |
| SocketService.CompactPayload | med-ai/lib/socket-service.tsx:105 | the middle of three dot-free parts joined by '.' is the payload segment |
| SocketService.AlphabetRoundTrip | med-ai/lib/socket-service.tsx:106 | mapping a base64url text gives a base64 text of the same length that maps back to the original |
| SocketService.SocketClient.NewSocket | med-ai/lib/socket-service.tsx:22-37 | the new socket carries the stored token exactly when one is stored, and the id extracted from storage |
| SocketService.SocketClient.InitializeSocket | med-ai/lib/socket-service.tsx:20-90 | an existing socket is returned unchanged; otherwise a new one is kept in both the module variable and `window.socket` |
| SocketService.SocketClient.InitializeTwice | med-ai/lib/socket-service.tsx:20-90 | two initializations return the same socket |
| SocketService.SocketClient.GetSocket | med-ai/lib/socket-service.tsx:117-122 | the existing socket, or a newly initialized one when there is none |
| SocketService.SocketClient.CloseSocket | med-ai/lib/socket-service.tsx:124-132 | both references are cleared and the socket is disconnected; nothing happens without a socket |
| SocketService.SocketClient.OnConnect | med-ai/lib/socket-service.tsx:39-47 | `user_connected` is emitted with the socket's user id when it is truthy, and nothing otherwise |
| SocketService.EmitOn | med-ai/lib/socket-service.tsx:164-188 | emitting adds nothing exactly when there is no socket, and otherwise one emission on it |
| SocketService.SocketClient.JoinRoom | med-ai/lib/socket-service.tsx:164-171 | `join` with `{room}` on the current socket, or nothing |
| SocketService.SocketClient.LeaveRoom | med-ai/lib/socket-service.tsx:173-177 | `leave` with `{room}` on the current socket, or nothing |
| SocketService.SocketClient.SendMessage | med-ai/lib/socket-service.tsx:179-188 | `message` with room, text, sender id and name passed through, or nothing |
| SocketService.SocketClient.SendVideoOffer | med-ai/lib/socket-service.tsx:191-202 | `video-offer` with `{room, offer, sender_id}` passed through, or nothing |
| SocketService.SocketClient.SendVideoAnswer | med-ai/lib/socket-service.tsx:204-215 | `video-answer` with `{room, answer, sender_id}` passed through, or nothing |
| SocketService.SocketClient.SendIceCandidate | med-ai/lib/socket-service.tsx:217-228 | `ice-candidate` with `{room, candidate, sender_id}` passed through, or nothing |
| SocketService.SocketClient.LeaveVideoRoom | med-ai/lib/socket-service.tsx:230-237 | `leave-room` with `{room, userId}` passed through, or nothing |
| ChatPage.Outgoing | med-ai/app/chat-with-doctor/page.tsx:218-225 | the message sent has the trimmed text, the patient role and is read; the sender is the user's name or "You" |
| ChatPage.Appended | med-ai/app/chat-with-doctor/page.tsx:227-230 | the message goes at the end of the chat's list, created when absent; every other conversation is unchanged |
| ChatPage.ChatState.HandleSendMessage | med-ai/app/chat-with-doctor/page.tsx:214-232 | no-op when the trimmed input is empty or no chat is open; otherwise the message is appended and the input cleared |
| ChatPage.AllRead | med-ai/app/chat-with-doctor/page.tsx:258-264 | every message becomes read, with count, order and every other field kept |
| ChatPage.AllReadSettles | med-ai/app/chat-with-doctor/page.tsx:258-264 | after marking no message is unread, and marking again changes nothing |
| ChatPage.ZeroUnread | med-ai/app/chat-with-doctor/page.tsx:266 | only the contact with that id gets a zero unread count; every contact keeps its place |
| ChatPage.ChatState.MarkMessagesAsRead | med-ai/app/chat-with-doctor/page.tsx:257-267 | that contact's messages become read and its counter zero; a contact without messages fails with nothing changed |
| ChatPage.ChatState.SelectContact | med-ai/app/chat-with-doctor/page.tsx:357-360 | clicking a contact opens its conversation and marks it read |
| ChatPage.FilteredContactsMembers | med-ai/app/chat-with-doctor/page.tsx:255 | a contact is listed exactly when its lower-cased name contains the lower-cased term; an empty term keeps all in order |
| ChatPage.TabMembers | med-ai/app/chat-with-doctor/page.tsx:349-350 | a tab lists exactly the matching contacts of its role |
| ChatPage.TabsCoverList | med-ai/app/chat-with-doctor/page.tsx:402-403 | the Doctors and Patients tabs together hold as many contacts as the full list |
| FindDoctor.Filters | med-ai/components/find-doctor.tsx:29-32 | specialty is set exactly when neither empty nor "all"; the name exactly when a term is typed; availability only as true, exactly when the box is checked |
| FindDoctor.FiltersQuery | med-ai/components/find-doctor.tsx:29-34 | the panel's query holds specialty, name and `availability=true`, each only when set, and never `availability=false` |
| FindDoctor.FilteredDoctorsMembers | med-ai/components/find-doctor.tsx:98 | a doctor is shown exactly when its lower-cased name contains the lower-cased term; an empty term keeps all; the filter is idempotent |
| FindDoctor.FindDoctorPanel.FetchDoctors | med-ai/components/find-doctor.tsx:26-46 | the filters sent are those of the panel; received doctors replace the list, a failure keeps it; loading ends either way |
| FindDoctor.FindDoctorPanel.StartChat | med-ai/components/find-doctor.tsx:57-79 | an existing room opens without a request; otherwise one room is requested and opened once created; loading ends |
| FindDoctor.FindDoctorPanel.StartVideoCall | med-ai/components/find-doctor.tsx:81-96 | one room is requested with the doctor and opened at `/video-call?room=` once created; loading ends |
| Dashboard.ModelLabelIff | med-ai/app/dashboard/page.tsx:67-73 | each model label names the first keyword present, in the order skin, covid, pneumonia; the generic label means none is present |
| Dashboard.SkinTakesPrecedence | med-ai/app/dashboard/page.tsx:67-68 | a filename holding both "skin" and "covid" is labelled as a skin report |
| Dashboard.PredictionLabelIff | med-ai/app/dashboard/page.tsx:74-78 | each result label names the first keyword present, in the order benign, normal; the generic label means neither is present |
| Dashboard.Shown | med-ai/app/dashboard/page.tsx:79 | the shown confidence lies between 85 and 99 |
| Dashboard.ShownReports | med-ai/app/dashboard/page.tsx:63-82 | the list has the same length and order; id, date and url are copied; labels come from the filename; confidence is 85..99 |
| Dashboard.UpcomingMembers | med-ai/app/dashboard/page.tsx:326-330 | the panel lists exactly the upcoming appointments, in order, and distributes over concatenation |
| Dashboard.AfterFetch | med-ai/app/dashboard/page.tsx:58-116 | loading ends in both cases; a failure keeps both lists; a success sets the mapped reports and the fixed appointments |
| AuthContext.LoginUser | med-ai/contexts/auth-context.tsx:51-56 | the mock name is the email before the first '@'; the role is doctor exactly when the email contains "doctor" |
| AuthContext.RegisteredUser | med-ai/contexts/auth-context.tsx:73-78 | the registered user has the form's name, email and role, and the id `user-` followed by the digits, without leading zeros, of the drawn number below 1000 |
| AuthContext.DecimalRoundTrip | med-ai/contexts/auth-context.tsx:74 | the digits written for a number read back as that number |
| AuthContext.Decimal | med-ai/contexts/auth-context.tsx:74 | the text is one or more digits, begins with 0 only for zero, and has at most three digits below 1000 |
| AuthContext.AuthProvider.CheckAuth | med-ai/contexts/auth-context.tsx:30-41 | a stored user that parses is restored, anything else leaves the user alone; loading ends in every case |
| AuthContext.AuthProvider.Login | med-ai/contexts/auth-context.tsx:46-66 | the mock user is signed in and the same value is stored under "user"; loading ends |
| AuthContext.AuthProvider.Register | med-ai/contexts/auth-context.tsx:68-88 | the form's user is signed in and stored under "user"; loading ends |
| AuthContext.AuthProvider.Logout | med-ai/contexts/auth-context.tsx:90-93 | nobody is signed in and only the "user" key is removed |
| AuthContext.LoginSurvivesReload | med-ai/contexts/auth-context.tsx:30-66 | a new provider over the storage a login left restores the same user, when parsing undoes stringifying |
| AuthContext.LogoutSurvivesReload | med-ai/contexts/auth-context.tsx:30-41 | after a logout a new provider restores nobody |

## Left out

- Machine-learning inference and report generation in `backend/app.py` are not modelled. This covers model loading, image transforms, the Gemini prompts and the PDF reports. They are foreign libraries and floating-point work.
- Password hashing is not modelled: a credential remembers the password it was made from, and salting is out of scope. JWT creation is not modelled either, so tokens are absent from the replies. Decorators that reject missing or expired tokens are framework behaviour; each handler takes the identity as a parameter.
- Randomness and the clock are parameters. `uuid4().hex`, `secrets.token_hex`, `Math.random`, `Date.now()` and `toLocaleTimeString` are passed in as values. `time.time()` becomes whole seconds, a `nat`.
- BackendModel.HistoryEntry: the float duration in minutes (backend/app.py:1022) is not modelled, because it is floating-point rounding.
- Socket.IO delivery is not modelled. This covers `emit` to rooms, the relay-only handlers, the `on_event` registration in `join_video_room`, and the background cleanup thread. The model records the store changes; on the client it records emitted events in a log.
- SocketService.SocketClient.OnConnect: only the announcement on the current socket is modelled. Reconnection, the error and disconnect listeners, the incoming-event handlers, the `useSocket` hook and toast notifications are left out.
- SocketService.UserIdFromToken: `atob` and `JSON.parse` are one decoder supplied by the caller, and non-string `sub` or `user_id` claims are not represented.
- The video-call page is not modelled. It only simulates a call with media devices and timers, and has no signalling logic.
- The simulated doctor replies on the chat page (timers) are not modelled.
- Text: lower-casing is ASCII-only. Python's `str.lower` and JavaScript's `toLowerCase` also map other letters. `trim` uses the ECMAScript white-space set.
- BackendStore: request fields are strings, missing, or JSON `null`. Where the handler gives `data.get` a default (`role`, `specialty`, `response`, `reason`), a `Field` keeps `null` apart from a missing key and the default applies only to the latter. Elsewhere `data.get` reads both as None, and the model does too. JSON values of other types (numbers, lists) in string fields, and a request without a JSON body where the handler requires one, are not represented.
- BackendStore.Backend.Register: a `role` sent as `null` is not modelled. backend/app.py:160 then stores a `null` role and makes the id start with "None-", which a string role cannot express; the model's role is missing or a string.
- BackendStore.Backend.TokenRevoked: no modelled handler consults the blocklist, because every handler takes the identity as a parameter. So a token revoked by `Logout` is still accepted by the other handlers of the model, where `@jwt_required` with the blocklist loader (backend/app.py:148-151) would refuse it.
- These backend routes are not modelled:
  - `/api/token/refresh` (backend/app.py:270), which issues a new access token;
  - `POST /api/chat` (backend/app.py:1287), which asks Gemini for a reply;
  - the ML and report routes `/api/models`, `/predict`, `/uploads/<filename>` and `/reports/<filename>`, and `/api/check-symptoms` apart from its choice of recommended models;
  - the page routes `/`, `/chat`, `/symptom-checker` and the catch-all.

  `/api/user` is modelled as `GetUser`.
- FormUrlEncoding.ParseSerialize: the parser stops at bytes. The final UTF-8 decoding is not modelled, so the round trip is stated on UTF-8 bytes.
- ApiService.ApiClient.HandleResponseError: the resent request goes through plain axios, so its own failure does not clear storage. The resend is returned as an outcome and is not performed.
- ChatPage.ChatState.MarkMessagesAsRead: for a contact without a message list, the updater throws while the page renders. The model reports `failed` and changes nothing, instead of modelling the crash.
- AuthContext: `JSON.stringify` and `JSON.parse` are functions supplied by the caller. A parse that yields a value that is not a user counts as yielding that user.
- AuthContext.AuthProvider.Register: requires a patient or doctor role, because the form's type admits only those two.
- Dashboard.AfterFetch: the fixed appointment list is a parameter, and its contents are not copied.
- Presentation (layouts, cards, dialogs, toasts) and the pages outside the modelled core are left out.

## Observations

These behaviours of the source are modelled as written:

- No handler ever adds to `chat_rooms`: it is only read. The model keeps it as a field that no method changes.
- `call_specific_doctor` does not check that the doctor is online, while `create_video_room` does (`BackendModel.CallPlanIgnoresStatus`).
- `respond_to_video_call` and `end_video_room` work on inactive rooms too. A room can be accepted after it has ended.
- In `end_video_room`, the second participant check (backend/app.py:911-913) comes after the same test already refused, so it is never reached.
- `create_video_room` has no branch for roles other than patient and doctor. The view returns nothing, which Flask answers with a server error; the model returns 500.
- The client's logout keeps the access and refresh tokens in `localStorage`. Only `user_id` and `user_data` are removed.
- The client calls three routes the backend does not define: `/api/video/check-room`, `/api/chat/create-room` and `/api/reports`. The backend answers them with its catch-all page route or refuses them. As a result:
  - the room check yields a falsy value (`undefined`: the catch-all route answers 200 with a page, which has no `exists` or `active` field);
  - `startChat` without an existing room ends in its failure branch;
  - the dashboard keeps its empty lists.

  The model takes each outcome as a parameter, so these failures are among the inputs it covers.
