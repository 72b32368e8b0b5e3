/** The handlers composed with the store models: each request is validated, the
    store call it makes is answered by the model, and the reply is mapped to a
    response. The profile handlers run against the profile store, as in the server.
    The create and list message handlers run against a store that saves and lists
    like the in-memory store; the server itself gives them its MongoDB store. */
module Service {
  import opened Results
  import opened GoStrings
  import opened Models
  import opened Handlers
  import Memory
  import Profiles

  /** The profile store's not-found text is recognised as such by the handlers. */
  lemma NotFoundIsRecognised(phoneNumber: string)
    ensures Contains(Profiles.NotFound(phoneNumber), "not found")
  {
    var head := "profile not found for phone number: ";
    assert head == "profile " + "not found" + " for phone number: ";
    assert head[8..17] == "not found";
    ContainsInHead(head, phoneNumber, "not found", 8);
  }

  /** The profile store's duplicate text is recognised as such by the handlers. */
  lemma AlreadyExistsIsRecognised(phoneNumber: string)
    ensures Contains(Profiles.AlreadyExists(phoneNumber), "already exists")
  {
    var head := "profile already exists for phone number: ";
    assert head == "profile " + "already exists" + " for phone number: ";
    assert head[8..22] == "already exists";
    ContainsInHead(head, phoneNumber, "already exists", 8);
  }

  /** `POST /messages` over a store that saves like the in-memory one: a valid
      request is appended to the log and answered 201 with the message; such a store
      never makes it fail. */
  function ServeCreateMessage(s: Memory.MemoryStore, body: Option<CreateMessageRequest>, stamp: string, now: int)
    : (r: (Memory.MemoryStore, Response))
    ensures NewMessage(body, stamp, now).Failure? ==> r == (s, NewMessage(body, stamp, now).error)
    ensures NewMessage(body, stamp, now).Success? ==>
      && r.1 == Response(StatusCreated, MessageBody(NewMessage(body, stamp, now).value))
      && Memory.List(r.0).value == Memory.List(s).value + [NewMessage(body, stamp, now).value]
    ensures r.1.status == StatusCreated || r.1.status == StatusBadRequest
  {
    match NewMessage(body, stamp, now)
    case Failure(rejection) => (s, rejection)
    case Success(msg) =>
      var (s', reply) := Memory.Save(s, msg);
      (s', CreateMessage(body, stamp, now, reply).response)
  }

  /** `GET /messages` over a store that lists like the in-memory one: always 200
      with the whole log, oldest first. */
  function ServeListMessages(s: Memory.MemoryStore): (r: Response)
    ensures r.status == StatusOK
    ensures r.body.MessageListBody? && |r.body.messages| == |s.messages|
    ensures forall i :: 0 <= i < |s.messages| ==> r.body.messages[i] == s.messages[i]
  {
    ListMessages(Memory.List(s)).response
  }

  /** A message accepted by `POST /messages` is the last one `GET /messages` lists,
      behind every message listed before. */
  lemma CreatedMessageIsListed(s: Memory.MemoryStore, body: Option<CreateMessageRequest>, stamp: string, now: int)
    requires ServeCreateMessage(s, body, stamp, now).1.status == StatusCreated
    ensures var (s', created) := ServeCreateMessage(s, body, stamp, now);
      ServeListMessages(s').body.messages == ServeListMessages(s).body.messages + [created.body.saved]
  {
    var (s', created) := ServeCreateMessage(s, body, stamp, now);
    assert NewMessage(body, stamp, now).Success?;
    assert ServeListMessages(s').body.messages == Memory.List(s').value;
    assert ServeListMessages(s).body.messages == Memory.List(s).value;
  }

  /** `GET /v1/profile/{phoneNumber}` against the profile store: 200 with the stored
      profile, or 404 naming the phone number; never 500. */
  function ServeGetProfile(c: Profiles.Collection, path: string): (r: Response)
    ensures ProfileKey(path).Failure? ==> r == ProfileKey(path).error
    ensures ProfileKey(path).Success? && ProfileKey(path).value in c ==>
      r == Response(StatusOK, ProfileBody(c[ProfileKey(path).value]))
    ensures ProfileKey(path).Success? && ProfileKey(path).value !in c ==>
      r == Error(StatusNotFound, "NOT_FOUND", Profiles.NotFound(ProfileKey(path).value))
    ensures r.status != StatusInternalServerError
  {
    match ProfileKey(path)
    case Failure(rejection) => rejection
    case Success(phoneNumber) =>
      NotFoundIsRecognised(phoneNumber);
      GetProfile(path, Profiles.GetProfile(c, phoneNumber)).response
  }

  /** `PUT /v1/profile/{phoneNumber}` against the profile store: the profile under
      the path's phone number gets the trimmed name and avatar and the new update
      time, keeps its phone number and creation time, and is answered 200; a missing
      profile is answered 404 and nothing changes; other profiles never change. */
  function ServeUpdateProfile(c: Profiles.Collection, path: string, body: Option<Profile>, now: int)
    : (r: (Profiles.Collection, Response))
    ensures ProfileChanges(path, body).Failure? ==> r == (c, ProfileChanges(path, body).error)
    ensures ProfileChanges(path, body).Success? ==>
      var phoneNumber := ProfileKey(path).value;
      && (phoneNumber !in c ==> r == (c, Error(StatusNotFound, "NOT_FOUND", Profiles.NotFound(phoneNumber))))
      && (phoneNumber in c ==>
            && r.0.Keys == c.Keys
            && r.0[phoneNumber] == c[phoneNumber].(name := TrimSpace(body.value.name),
                                                   avatar := TrimSpace(body.value.avatar),
                                                   updatedAt := now)
            && r.1 == Response(StatusOK, ProfileBody(r.0[phoneNumber])))
    ensures forall k :: k in c && (ProfileChanges(path, body).Failure? || k != ProfileKey(path).value) ==>
      k in r.0 && r.0[k] == c[k]
    ensures Profiles.Valid(c) ==> Profiles.Valid(r.0)
    ensures r.1.status != StatusInternalServerError
  {
    match ProfileChanges(path, body)
    case Failure(rejection) => (c, rejection)
    case Success((phoneNumber, changes)) =>
      NotFoundIsRecognised(phoneNumber);
      var step := Profiles.UpdateProfile(c, phoneNumber, changes, now);
      (step.collection, UpdateProfile(path, body, step.reply).response)
  }

  /** `POST /v1/profile` against the profile store: a new phone number is stored with
      both timestamps set to `now` and answered 201; one in use is answered 409 and
      nothing changes; never 500. */
  function ServeCreateProfile(c: Profiles.Collection, body: Option<Profile>, now: int)
    : (r: (Profiles.Collection, Response))
    ensures NewProfile(body).Failure? ==> r == (c, NewProfile(body).error)
    ensures NewProfile(body).Success? ==>
      var p := NewProfile(body).value;
      && (p.phoneNumber in c ==>
            r == (c, Error(StatusConflict, "CONFLICT", Profiles.AlreadyExists(p.phoneNumber))))
      && (p.phoneNumber !in c ==>
            && r.0 == c[p.phoneNumber := p.(createdAt := now, updatedAt := now)]
            && r.1 == Response(StatusCreated, ProfileBody(p.(createdAt := now, updatedAt := now))))
    ensures Profiles.Valid(c) ==> Profiles.Valid(r.0)
    ensures r.1.status != StatusInternalServerError
  {
    match NewProfile(body)
    case Failure(rejection) => (c, rejection)
    case Success(profile) =>
      AlreadyExistsIsRecognised(profile.phoneNumber);
      var step := Profiles.CreateProfile(c, profile, now);
      (step.collection, CreateProfile(body, step.reply).response)
  }

  /** A profile created through `POST /v1/profile` is what
      `GET /v1/profile/{phoneNumber}` then answers for its trimmed phone number. */
  lemma CreatedProfileIsServed(c: Profiles.Collection, body: Option<Profile>, now: int)
    requires ServeCreateProfile(c, body, now).1.status == StatusCreated
    ensures var (c', created) := ServeCreateProfile(c, body, now);
      ServeGetProfile(c', ProfilePrefix + TrimSpace(body.value.phoneNumber)) == Response(StatusOK, created.body)
  {
    var p := NewProfile(body).value;
    var phoneNumber := TrimSpace(body.value.phoneNumber);
    assert p.phoneNumber == phoneNumber;
    TrimSpaceIdempotent(body.value.phoneNumber);
    ProfileKeyOfShapedPath(phoneNumber);
    assert ProfileKey(ProfilePrefix + phoneNumber) == Success(phoneNumber);
  }

  /** A second `POST /v1/profile` for a phone number just created conflicts, and
      leaves the first profile in place. */
  lemma SecondCreateConflicts(c: Profiles.Collection, body: Option<Profile>, again: Option<Profile>, now: int, later: int)
    requires ServeCreateProfile(c, body, now).1.status == StatusCreated
    requires again.Some? && TrimSpace(again.value.phoneNumber) == TrimSpace(body.value.phoneNumber)
    ensures var c' := ServeCreateProfile(c, body, now).0;
      ServeCreateProfile(c', again, later)
        == (c', Error(StatusConflict, "CONFLICT", Profiles.AlreadyExists(TrimSpace(body.value.phoneNumber))))
  {
    assert NewProfile(body).Success?;
    assert NewProfile(again).Success?;
  }
}
