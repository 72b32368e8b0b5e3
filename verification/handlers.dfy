/** The HTTP handlers of the store service, each a pure function of its request
    (path and decoded body), the values it would read from the clock, and the reply
    the store gives it. A handler yields an `Exchange`: the store call it makes, if
    any, and the response it writes. Each handler is split into a validation phase
    (which either rejects the request or fixes the store call) and a phase mapping the
    store's reply to a response. */
module Handlers {
  import opened Results
  import opened GoStrings
  import opened Models

  const StatusOK: nat := 200
  const StatusCreated: nat := 201
  const StatusBadRequest: nat := 400
  const StatusNotFound: nat := 404
  const StatusConflict: nat := 409
  const StatusInternalServerError: nat := 500

  /** The JSON payload written with the status. */
  datatype Body =
    | ErrorBody(code: string, message: string)
    | MessageBody(saved: Message)
    | MessageListBody(messages: seq<Message>)
    | PhoneNumberListBody(phoneNumbers: seq<string>)
    | DeletedBody(confirmation: string, deletedCount: nat, deletedFor: Option<string>)
    | ProfileBody(profile: Profile)

  datatype Response = Response(status: nat, body: Body)

  function Error(status: nat, code: string, message: string): Response {
    Response(status, ErrorBody(code, message))
  }

  function BadRequest(message: string): Response {
    Error(StatusBadRequest, "BAD_REQUEST", message)
  }

  function Internal(message: string): Response {
    Error(StatusInternalServerError, "INTERNAL", message)
  }

  const InvalidPath := "invalid URL path"
  const InvalidPhone := "invalid phoneNumber"
  const InvalidJson := "invalid JSON body"

  /** The store methods a handler may call, with the arguments it passes. */
  datatype StoreCall =
    | SaveCall(msg: Message)
    | ListCall
    | FindByPhoneNumberCall(phoneNumber: string)
    | DeleteAllCall
    | DistinctPhoneNumbersCall
    | DeleteByPhoneNumberCall(phoneNumber: string)
    | GetProfileCall(phoneNumber: string)
    | UpdateProfileCall(phoneNumber: string, profile: Profile)
    | CreateProfileCall(profile: Profile)

  datatype Exchange = Exchange(call: Option<StoreCall>, response: Response)

  /** A request answered without touching the store. */
  function Reject(response: Response): Exchange {
    Exchange(None, response)
  }

  /** A phone number a handler is willing to hand to the store: not empty, and free
      of `/` so that it cannot reach into another path. */
  predicate ValidPhoneKey(k: string) {
    k != "" && !Contains(k, "/")
  }

  /* ---------- path keys ---------- */

  const UserPrefix := "/v1/user/"
  const MessagesSuffix := "/messages"
  const ProfilePrefix := "/v1/profile/"

  /** The phone number the user-messages handlers cut out of a path: the prefix
      removed, then the suffix if it is still there, then surrounding white space. */
  function UserMessagesSegment(path: string): string {
    TrimSpace(TrimSuffix(TrimPrefix(path, UserPrefix), MessagesSuffix))
  }

  /** Validation shared by `GetUserMessages` and `DeleteUserMessages`: the path must
      start with the prefix and end with the suffix, and the segment cut out of it
      must be a valid phone number. */
  function UserMessagesKey(path: string): (r: Result<string, Response>)
    ensures !(HasPrefix(path, UserPrefix) && HasSuffix(path, MessagesSuffix))
        <==> r == Failure(BadRequest(InvalidPath))
    ensures r.Success?
        <==> HasPrefix(path, UserPrefix) && HasSuffix(path, MessagesSuffix) && ValidPhoneKey(UserMessagesSegment(path))
    ensures r.Success? ==> r.value == UserMessagesSegment(path)
    ensures r.Failure? ==> r.error == BadRequest(InvalidPath) || r.error == BadRequest(InvalidPhone)
  {
    if !HasPrefix(path, UserPrefix) || !HasSuffix(path, MessagesSuffix) then
      Failure(BadRequest(InvalidPath))
    else
      var phoneNumber := UserMessagesSegment(path);
      if phoneNumber == "" || Contains(phoneNumber, "/") then Failure(BadRequest(InvalidPhone))
      else Success(phoneNumber)
  }

  /** For a path of the documented shape `/v1/user/{k}/messages`, the key is `k`
      without its surrounding white space, accepted when valid. */
  lemma UserMessagesKeyOfShapedPath(k: string)
    ensures UserMessagesKey(UserPrefix + k + MessagesSuffix)
         == if ValidPhoneKey(TrimSpace(k)) then Success(TrimSpace(k)) else Failure(BadRequest(InvalidPhone))
  {
    var path := UserPrefix + k + MessagesSuffix;
    assert path[..|UserPrefix|] == UserPrefix;
    assert path[|path| - |MessagesSuffix|..] == MessagesSuffix;
    assert TrimPrefix(path, UserPrefix) == k + MessagesSuffix;
    assert (k + MessagesSuffix)[|k + MessagesSuffix| - |MessagesSuffix|..] == MessagesSuffix;
    assert TrimSuffix(k + MessagesSuffix, MessagesSuffix) == k;
  }

  /** The prefix and the suffix are checked independently, so they may share the
      `/` between them: `/v1/user/messages` passes both checks, the suffix is no
      longer there once the prefix is gone, and the key handed on is `messages`. */
  lemma OverlappingUserPath()
    ensures UserMessagesKey("/v1/user/messages") == Success("messages")
  {
    var path := "/v1/user/messages";
    var t: string := "messages";
    assert !Contains(t, "/") by {
      ContainsChar(t, '/');
    }
    assert HasPrefix(path, UserPrefix) && HasSuffix(path, MessagesSuffix) by {
      assert path == UserPrefix + t;
      assert path[..|UserPrefix|] == UserPrefix;
      assert path[|path| - |MessagesSuffix|..] == MessagesSuffix;
    }
    var afterPrefix := TrimPrefix(path, UserPrefix);
    assert afterPrefix == t by {
      assert path == UserPrefix + t;
    }
    var afterSuffix := TrimSuffix(afterPrefix, MessagesSuffix);
    assert afterSuffix == t;
    assert TrimSpace(afterSuffix) == t by {
      assert Trimmed(t);
      assert [] + t + [] == t;
      TrimSpaceUnique([], t, []);
    }
  }

  /** The paths that pass the prefix and suffix checks are the documented shape
      `/v1/user/{k}/messages`, and the one path where the two overlap. */
  lemma UserPathShapes(path: string)
    requires HasPrefix(path, UserPrefix) && HasSuffix(path, MessagesSuffix)
    ensures path == "/v1/user/messages"
         || (|path| >= |UserPrefix| + |MessagesSuffix|
             && path == UserPrefix + path[|UserPrefix|..|path| - |MessagesSuffix|] + MessagesSuffix)
  {
    var n, p, q := |path|, |UserPrefix|, |MessagesSuffix|;
    assert path[..p] == UserPrefix;
    assert path[n - q..] == MessagesSuffix;
    assert path[p - 1] == path[..p][p - 1] == '/';
    if n < p + q - 1 {
      // the prefix's final `/` would have to be a letter of `messages`
      assert false;
    } else if n == p + q - 1 {
      assert path == path[..p] + path[p..];
      assert path[p..] == path[n - q..][1..];
    } else {
      assert path == path[..p] + path[p..n - q] + path[n - q..];
    }
  }

  /** Validation of `GetProfile` and `UpdateProfile`: the path must start with the
      profile prefix, and the rest of it, without surrounding white space, must be a
      valid phone number. */
  function ProfileKey(path: string): (r: Result<string, Response>)
    ensures !HasPrefix(path, ProfilePrefix) <==> r == Failure(BadRequest(InvalidPath))
    ensures r.Success? <==> HasPrefix(path, ProfilePrefix) && ValidPhoneKey(TrimSpace(TrimPrefix(path, ProfilePrefix)))
    ensures r.Success? ==> r.value == TrimSpace(TrimPrefix(path, ProfilePrefix))
    ensures r.Failure? ==> r.error == BadRequest(InvalidPath) || r.error == BadRequest(InvalidPhone)
  {
    if !HasPrefix(path, ProfilePrefix) then
      Failure(BadRequest(InvalidPath))
    else
      var phoneNumber := TrimSpace(TrimPrefix(path, ProfilePrefix));
      if phoneNumber == "" || Contains(phoneNumber, "/") then Failure(BadRequest(InvalidPhone))
      else Success(phoneNumber)
  }

  /** For a path `/v1/profile/{k}`, the key is `k` without its surrounding white
      space, accepted when valid. */
  lemma ProfileKeyOfShapedPath(k: string)
    ensures ProfileKey(ProfilePrefix + k)
         == if ValidPhoneKey(TrimSpace(k)) then Success(TrimSpace(k)) else Failure(BadRequest(InvalidPhone))
  {
    assert (ProfilePrefix + k)[..|ProfilePrefix|] == ProfilePrefix;
    assert TrimPrefix(ProfilePrefix + k, ProfilePrefix) == k;
  }

  /* ---------- replies to responses ---------- */

  /** A message list read from the store: 200 with the list, even an empty one, or
      500 with the handler's own message. */
  function MessageListResponse(reply: Reply<seq<Message>>, failure: string): Response {
    match reply
    case Ok(messages) => Response(StatusOK, MessageListBody(messages))
    case Err(_) => Internal(failure)
  }

  /** A deletion's count: 200 echoing the count (and the phone number, when one was
      given), or 500. */
  function DeletedResponse(reply: Reply<nat>, confirmation: string, deletedFor: Option<string>): Response {
    match reply
    case Ok(count) => Response(StatusOK, DeletedBody(confirmation, count, deletedFor))
    case Err(_) => Internal("could not delete messages")
  }

  /** The store's errors whose text says the profile does not exist become 404
      carrying that text; other errors become 500 with the handler's own message. */
  function ProfileLookupResponse(reply: Reply<Profile>, failure: string): Response {
    match reply
    case Ok(profile) => Response(StatusOK, ProfileBody(profile))
    case Err(msg) =>
      if Contains(msg, "not found") then Error(StatusNotFound, "NOT_FOUND", msg) else Internal(failure)
  }

  /** The store's errors whose text says the profile exists already become 409
      carrying that text; other errors become 500. */
  function ProfileCreatedResponse(reply: Reply<Profile>): Response {
    match reply
    case Ok(profile) => Response(StatusCreated, ProfileBody(profile))
    case Err(msg) =>
      if Contains(msg, "already exists") then Error(StatusConflict, "CONFLICT", msg)
      else Internal("could not create profile")
  }

  /* ---------- message handlers ---------- */

  datatype CreateMessageRequest = CreateMessageRequest(phoneNumber: string, text: string)

  const MessageIdPrefix := "msg-"
  const StatusReceived := "RECEIVED"

  /** Validation of `CreateMessage`: both fields trimmed, the phone number checked
      before the text, and the message to save built from them. `stamp` is the
      formatted clock reading that follows `msg-` in the identifier and `now` the
      clock reading stored as the creation time. */
  function NewMessage(body: Option<CreateMessageRequest>, stamp: string, now: int): (r: Result<Message, Response>)
    ensures body.None? ==> r == Failure(BadRequest(InvalidJson))
    ensures body.Some? && TrimSpace(body.value.phoneNumber) == "" ==> r == Failure(BadRequest("phoneNumber is required"))
    ensures body.Some? && TrimSpace(body.value.phoneNumber) != "" && TrimSpace(body.value.text) == ""
        ==> r == Failure(BadRequest("text is required"))
    ensures r.Success? <==> body.Some? && TrimSpace(body.value.phoneNumber) != "" && TrimSpace(body.value.text) != ""
    ensures r.Success? ==>
      && r.value.phoneNumber == TrimSpace(body.value.phoneNumber)
      && r.value.text == TrimSpace(body.value.text)
      && r.value.status == StatusReceived
      && r.value.id == MessageIdPrefix + stamp
      && r.value.userId == ""
      && r.value.createdAt == now
  {
    match body
    case None => Failure(BadRequest(InvalidJson))
    case Some(req) =>
      var phoneNumber := TrimSpace(req.phoneNumber);
      var text := TrimSpace(req.text);
      if phoneNumber == "" then Failure(BadRequest("phoneNumber is required"))
      else if text == "" then Failure(BadRequest("text is required"))
      else Success(Message(MessageIdPrefix + stamp, "", phoneNumber, text, StatusReceived, now))
  }

  /** `POST /messages`: saves the validated message and answers 201 with what the
      store saved, or 500. */
  function CreateMessage(body: Option<CreateMessageRequest>, stamp: string, now: int, reply: Reply<Message>): (x: Exchange)
    ensures x.call.Some? <==> NewMessage(body, stamp, now).Success?
    ensures x.call.None? ==> x.response == NewMessage(body, stamp, now).error && x.response.status == StatusBadRequest
    ensures x.call.Some? ==>
      && x.call.value == SaveCall(NewMessage(body, stamp, now).value)
      && (reply.Ok? ==> x.response == Response(StatusCreated, MessageBody(reply.value)))
      && (reply.Err? ==> x.response == Internal("could not save message"))
  {
    match NewMessage(body, stamp, now)
    case Failure(rejection) => Reject(rejection)
    case Success(msg) =>
      var response := match reply
        case Ok(saved) => Response(StatusCreated, MessageBody(saved))
        case Err(_) => Internal("could not save message");
      Exchange(Some(SaveCall(msg)), response)
  }

  /** `GET /messages`: every stored message, or 500. */
  function ListMessages(reply: Reply<seq<Message>>): (x: Exchange)
    ensures x.call == Some(ListCall)
    ensures reply.Ok? <==> x.response.status == StatusOK
    ensures reply.Ok? ==> x.response.body == MessageListBody(reply.value)
    ensures reply.Err? ==> x.response == Internal("could not list messages")
  {
    Exchange(Some(ListCall), MessageListResponse(reply, "could not list messages"))
  }

  /** `GET /v1/user/{phoneNumber}/messages`: the messages of one phone number,
      200 even when there are none, or 500 when the store fails. */
  function GetUserMessages(path: string, reply: Reply<seq<Message>>): (x: Exchange)
    ensures x.call.Some? <==> UserMessagesKey(path).Success?
    ensures x.call.None? ==> x.response == UserMessagesKey(path).error && x.response.status == StatusBadRequest
    ensures x.call.Some? ==>
      && x.call.value == FindByPhoneNumberCall(UserMessagesKey(path).value)
      && ValidPhoneKey(x.call.value.phoneNumber)
      && (reply.Ok? <==> x.response.status == StatusOK)
      && (reply.Ok? ==> x.response.body == MessageListBody(reply.value))
      && (reply.Err? ==> x.response == Internal("could not retrieve messages"))
  {
    match UserMessagesKey(path)
    case Failure(rejection) => Reject(rejection)
    case Success(phoneNumber) =>
      Exchange(Some(FindByPhoneNumberCall(phoneNumber)), MessageListResponse(reply, "could not retrieve messages"))
  }

  /** `DELETE /messages`: removes every message and reports how many. */
  function DeleteAllMessages(reply: Reply<nat>): (x: Exchange)
    ensures x.call == Some(DeleteAllCall)
    ensures reply.Ok? ==> x.response == Response(StatusOK, DeletedBody("All messages deleted successfully", reply.value, None))
    ensures reply.Err? ==> x.response == Internal("could not delete messages")
  {
    Exchange(Some(DeleteAllCall), DeletedResponse(reply, "All messages deleted successfully", None))
  }

  /** `GET /v1/conversations`: the distinct phone numbers, 200 even when there are
      none, or 500. */
  function GetConversations(reply: Reply<seq<string>>): (x: Exchange)
    ensures x.call == Some(DistinctPhoneNumbersCall)
    ensures reply.Ok? ==> x.response == Response(StatusOK, PhoneNumberListBody(reply.value))
    ensures reply.Err? ==> x.response == Internal("could not retrieve conversations")
  {
    var response := match reply
      case Ok(phoneNumbers) => Response(StatusOK, PhoneNumberListBody(phoneNumbers))
      case Err(_) => Internal("could not retrieve conversations");
    Exchange(Some(DistinctPhoneNumbersCall), response)
  }

  /** `DELETE /v1/user/{phoneNumber}/messages`: removes the messages of one phone
      number and echoes the count and the phone number. */
  function DeleteUserMessages(path: string, reply: Reply<nat>): (x: Exchange)
    ensures x.call.Some? <==> UserMessagesKey(path).Success?
    ensures x.call.None? ==> x.response == UserMessagesKey(path).error && x.response.status == StatusBadRequest
    ensures x.call.Some? ==>
      && x.call.value == DeleteByPhoneNumberCall(UserMessagesKey(path).value)
      && ValidPhoneKey(x.call.value.phoneNumber)
      && (reply.Ok? ==> x.response == Response(StatusOK,
            DeletedBody("Messages deleted successfully", reply.value, Some(x.call.value.phoneNumber))))
      && (reply.Err? ==> x.response == Internal("could not delete messages"))
  {
    match UserMessagesKey(path)
    case Failure(rejection) => Reject(rejection)
    case Success(phoneNumber) =>
      Exchange(Some(DeleteByPhoneNumberCall(phoneNumber)),
               DeletedResponse(reply, "Messages deleted successfully", Some(phoneNumber)))
  }

  /** Reading and deleting a phone number's messages accept the same paths, reject
      the others with the same response, and address the same phone number. */
  lemma UserMessagesRoutesAgree(path: string, found: Reply<seq<Message>>, deleted: Reply<nat>)
    ensures GetUserMessages(path, found).call.Some? <==> DeleteUserMessages(path, deleted).call.Some?
    ensures GetUserMessages(path, found).call.None? ==>
      GetUserMessages(path, found).response == DeleteUserMessages(path, deleted).response
    ensures GetUserMessages(path, found).call.Some? ==>
      GetUserMessages(path, found).call.value.phoneNumber == DeleteUserMessages(path, deleted).call.value.phoneNumber
  {
  }

  /* ---------- profile handlers ---------- */

  /** `GET /v1/profile/{phoneNumber}`: 200 with the profile, 404 when the store says
      it is not found, 500 on any other store error. */
  function GetProfile(path: string, reply: Reply<Profile>): (x: Exchange)
    ensures x.call.Some? <==> ProfileKey(path).Success?
    ensures x.call.None? ==> x.response == ProfileKey(path).error && x.response.status == StatusBadRequest
    ensures x.call.Some? ==>
      && x.call.value == GetProfileCall(ProfileKey(path).value)
      && ValidPhoneKey(x.call.value.phoneNumber)
      && (reply.Ok? ==> x.response == Response(StatusOK, ProfileBody(reply.value)))
      && (reply.Err? && Contains(reply.msg, "not found") ==> x.response == Error(StatusNotFound, "NOT_FOUND", reply.msg))
      && (reply.Err? && !Contains(reply.msg, "not found") ==> x.response == Internal("could not retrieve profile"))
  {
    match ProfileKey(path)
    case Failure(rejection) => Reject(rejection)
    case Success(phoneNumber) =>
      Exchange(Some(GetProfileCall(phoneNumber)), ProfileLookupResponse(reply, "could not retrieve profile"))
  }

  /** Validation of `UpdateProfile`: the path first, then the body, whose name and
      avatar are trimmed before they go to the store. */
  function ProfileChanges(path: string, body: Option<Profile>): (r: Result<(string, Profile), Response>)
    ensures ProfileKey(path).Failure? ==> r == Failure(ProfileKey(path).error)
    ensures ProfileKey(path).Success? && body.None? ==> r == Failure(BadRequest(InvalidJson))
    ensures r.Success? <==> ProfileKey(path).Success? && body.Some?
    ensures r.Success? ==>
      && r.value.0 == ProfileKey(path).value
      && r.value.1 == body.value.(name := TrimSpace(body.value.name), avatar := TrimSpace(body.value.avatar))
  {
    match ProfileKey(path)
    case Failure(rejection) => Failure(rejection)
    case Success(phoneNumber) =>
      match body
      case None => Failure(BadRequest(InvalidJson))
      case Some(req) =>
        Success((phoneNumber, req.(name := TrimSpace(req.name), avatar := TrimSpace(req.avatar))))
  }

  /** `PUT /v1/profile/{phoneNumber}`: the path is checked before the body is
      decoded; the phone number handed to the store is the one in the path. */
  function UpdateProfile(path: string, body: Option<Profile>, reply: Reply<Profile>): (x: Exchange)
    ensures ProfileKey(path).Failure? ==> x == Reject(ProfileKey(path).error)
    ensures ProfileKey(path).Success? && body.None? ==> x == Reject(BadRequest(InvalidJson))
    ensures x.call.Some? <==> ProfileKey(path).Success? && body.Some?
    ensures x.call.Some? ==>
      && x.call.value == UpdateProfileCall(ProfileKey(path).value,
           body.value.(name := TrimSpace(body.value.name), avatar := TrimSpace(body.value.avatar)))
      && ValidPhoneKey(x.call.value.phoneNumber)
      && (reply.Ok? ==> x.response == Response(StatusOK, ProfileBody(reply.value)))
      && (reply.Err? && Contains(reply.msg, "not found") ==> x.response == Error(StatusNotFound, "NOT_FOUND", reply.msg))
      && (reply.Err? && !Contains(reply.msg, "not found") ==> x.response == Internal("could not update profile"))
  {
    match ProfileChanges(path, body)
    case Failure(rejection) => Reject(rejection)
    case Success((phoneNumber, changes)) =>
      Exchange(Some(UpdateProfileCall(phoneNumber, changes)), ProfileLookupResponse(reply, "could not update profile"))
  }

  /** Validation of `CreateProfile`: all three text fields trimmed, then the phone
      number must be present and free of `/`. */
  function NewProfile(body: Option<Profile>): (r: Result<Profile, Response>)
    ensures body.None? ==> r == Failure(BadRequest(InvalidJson))
    ensures body.Some? && TrimSpace(body.value.phoneNumber) == "" ==> r == Failure(BadRequest("phoneNumber is required"))
    ensures body.Some? && TrimSpace(body.value.phoneNumber) != "" && Contains(TrimSpace(body.value.phoneNumber), "/")
        ==> r == Failure(BadRequest(InvalidPhone))
    ensures r.Success? <==> body.Some? && ValidPhoneKey(TrimSpace(body.value.phoneNumber))
    ensures r.Success? ==> r.value == body.value.(
      phoneNumber := TrimSpace(body.value.phoneNumber),
      name := TrimSpace(body.value.name),
      avatar := TrimSpace(body.value.avatar))
  {
    match body
    case None => Failure(BadRequest(InvalidJson))
    case Some(req) =>
      var trimmed := req.(phoneNumber := TrimSpace(req.phoneNumber), name := TrimSpace(req.name),
                          avatar := TrimSpace(req.avatar));
      if trimmed.phoneNumber == "" then Failure(BadRequest("phoneNumber is required"))
      else if Contains(trimmed.phoneNumber, "/") then Failure(BadRequest(InvalidPhone))
      else Success(trimmed)
  }

  /** `POST /v1/profile`: 201 with the created profile, 409 when the store says it
      exists already, 500 on any other store error. */
  function CreateProfile(body: Option<Profile>, reply: Reply<Profile>): (x: Exchange)
    ensures x.call.Some? <==> NewProfile(body).Success?
    ensures x.call.None? ==> x.response == NewProfile(body).error && x.response.status == StatusBadRequest
    ensures x.call.Some? ==>
      && x.call.value == CreateProfileCall(NewProfile(body).value)
      && ValidPhoneKey(x.call.value.profile.phoneNumber)
      && (reply.Ok? ==> x.response == Response(StatusCreated, ProfileBody(reply.value)))
      && (reply.Err? && Contains(reply.msg, "already exists") ==> x.response == Error(StatusConflict, "CONFLICT", reply.msg))
      && (reply.Err? && !Contains(reply.msg, "already exists") ==> x.response == Internal("could not create profile"))
  {
    match NewProfile(body)
    case Failure(rejection) => Reject(rejection)
    case Success(profile) => Exchange(Some(CreateProfileCall(profile)), ProfileCreatedResponse(reply))
  }
}
