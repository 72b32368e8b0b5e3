# sms-store: request handling and stores, modelled in Dafny

This project models the sequential core of the Go `sms-store` service:

- the HTTP handlers (`internal/httpapi/handlers.go`): how each handler cuts a phone
  number out of the URL path, trims and validates body fields, decides which store
  call to make, and maps the store's reply to a status code and JSON body;
- the in-memory message store (`internal/store/memory.go`): an append-only log with
  `Save` and `List`;
- the profile store (`internal/store/profile_store.go`): create, get and update of
  profiles keyed by phone number.

Every handler is a pure function of its request (path, decoded body), the clock
readings it would take, and the store's reply (`Reply<T> = Ok(value) | Err(msg)`, the
Go `(value, error)` pair with the error's text). It yields an `Exchange`: the store call
it makes, if any, and the `Response(status, body)` it writes. The stores are state
transformers: the message log is a `seq<Message>`, the profile collection a
`map<string, Profile>` (the unique index on `phoneNumber` makes it a map). The
`Service` module runs the handlers against these store models end to end. For the
profile handlers this is the pairing the program makes. For the message handlers it
is not: the server hands them its MongoDB message store (`cmd/server/main.go`), and
`MemoryStore` could not stand in for it, because it has only `Save` and `List` while
the handlers also look up and delete by phone number. `Service.ServeCreateMessage`,
`Service.ServeListMessages` and `Service.CreatedMessageIsListed` therefore describe
the create and list handlers over a store that saves and lists the way `MemoryStore`
does, a composition the program itself never runs.

Modules:

| file | module | models |
|---|---|---|
| results.dfy | `Results` | `Option`, `Result`, and `Reply` for a Go `(value, error)` return |
| go_strings.dfy | `GoStrings` | `strings.TrimSpace`, `HasPrefix`, `HasSuffix`, `TrimPrefix`, `TrimSuffix`, `Contains` |
| models.dfy | `Models` | `Message` and `Profile`, timestamps as integers |
| memory.dfy | `Memory` | the in-memory message store |
| profiles.dfy | `Profiles` | the profile store |
| handlers.dfy | `Handlers` | the HTTP handlers |
| service.dfy | `Service` | handlers composed with the two store models |

One derived behaviour is modelled as written: the user-messages handlers test the
prefix `/v1/user/` and the suffix `/messages` independently, and the two may share
the `/` between them. For the path `/v1/user/messages` the prefix is removed, the
remainder `messages` no longer ends with `/messages`, and the key handed to the store
is `messages` (`Handlers.OverlappingUserPath`). `Handlers.UserPathShapes` shows this
is the only accepted path that is not of the form `/v1/user/{k}/messages`.

## Model

| member | source | states |
|---|---|---|
| `GoStrings.IsSpace` | sms-store/internal/httpapi/handlers.go:116 | the white space `TrimSpace` removes: Unicode's White_Space characters (U+0009 to U+000D, U+0020, U+0085, U+00A0, U+1680, U+2000 to U+200A, U+2028, U+2029, U+202F, U+205F, U+3000); below U+0080 exactly tab, newline, vertical tab, form feed, carriage return and space; never `/` |
| `GoStrings.HasPrefix` | sms-store/internal/httpapi/handlers.go:108 | the path starts with the prefix exactly when it is at least as long and agrees with the prefix at each of the prefix's positions |
| `GoStrings.HasSuffix` | sms-store/internal/httpapi/handlers.go:108 | the path ends with the suffix exactly when it is at least as long and its last characters agree with the suffix position by position |
| `GoStrings.Contains` | sms-store/internal/httpapi/handlers.go:119 | the needle occurs at some offset: the empty needle occurs in every string, a needle longer than the string never occurs, and a prefix or suffix always occurs |
| `GoStrings.LeadingSpaces` | sms-store/internal/httpapi/handlers.go:116 | the count covers only white space and stops at the first character that is not white space |
| `GoStrings.TrailingSpaces` | sms-store/internal/httpapi/handlers.go:116 | the count covers only white space and stops at the last character that is not white space |
| `GoStrings.LeadingSpacesOf` | sms-store/internal/httpapi/handlers.go:116 | white space in front of text that does not start with white space is counted exactly |
| `GoStrings.TrailingSpacesOf` | sms-store/internal/httpapi/handlers.go:116 | white space behind text that does not end with white space is counted exactly |
| `GoStrings.TrimSpace` | sms-store/internal/httpapi/handlers.go:116 | the input is white space, then the result, then white space, and the result neither starts nor ends with white space |
| `GoStrings.TrimSpaceUnique` | sms-store/internal/httpapi/handlers.go:116 | any text padded with white space on both sides and not itself starting or ending with white space is exactly what trimming returns |
| `GoStrings.TrimSpaceIdempotent` | sms-store/internal/httpapi/handlers.go:286 | trimming a trimmed value changes nothing |
| `GoStrings.TrimSpaceEmpty` | sms-store/internal/httpapi/handlers.go:60-63 | a field trims to empty exactly when it is all white space |
| `GoStrings.TrimPrefix` | sms-store/internal/httpapi/handlers.go:114 | when the input starts with the prefix, prefix plus result is the input; otherwise the input is returned unchanged |
| `GoStrings.TrimSuffix` | sms-store/internal/httpapi/handlers.go:115 | when the input ends with the suffix, result plus suffix is the input; otherwise the input is returned unchanged |
| `GoStrings.ContainsChar` | sms-store/internal/httpapi/handlers.go:119 | searching for the one-character string `/` succeeds exactly when `/` is one of the characters |
| `Handlers.UserMessagesKey` | sms-store/internal/httpapi/handlers.go:104-122 | a path lacking the prefix or the suffix is rejected 400 "invalid URL path"; otherwise the extracted key is accepted exactly when it is non-empty and has no `/`, and is rejected 400 "invalid phoneNumber" when not |
| `Handlers.UserMessagesKeyOfShapedPath` | sms-store/internal/httpapi/handlers.go:113-122 | for `/v1/user/{k}/messages` the key is `k` trimmed, accepted exactly when valid |
| `Handlers.OverlappingUserPath` | sms-store/internal/httpapi/handlers.go:108-119 | `/v1/user/messages` passes both checks and yields the key `messages` |
| `Handlers.UserPathShapes` | sms-store/internal/httpapi/handlers.go:104-111 | a path with the prefix and the suffix is either `/v1/user/{k}/messages` for some `k` or exactly `/v1/user/messages` |
| `Handlers.ProfileKey` | sms-store/internal/httpapi/handlers.go:202-217 | a path without `/v1/profile/` is rejected 400 "invalid URL path"; the trimmed remainder is accepted exactly when non-empty and free of `/`, and rejected 400 "invalid phoneNumber" otherwise |
| `Handlers.ProfileKeyOfShapedPath` | sms-store/internal/httpapi/handlers.go:210-217 | for `/v1/profile/{k}` the key is `k` trimmed, accepted exactly when valid |
| `Handlers.NewMessage` | sms-store/internal/httpapi/handlers.go:54-78 | a body that did not decode is 400 "invalid JSON body"; an empty trimmed phone number is reported before an empty trimmed text; a valid request becomes a message with the trimmed fields, status `RECEIVED`, id `msg-` plus the clock stamp, empty user id, and creation time `now` |
| `Handlers.CreateMessage` | sms-store/internal/httpapi/handlers.go:53-87 | the store is called exactly when validation passes, with the message built from the request; 201 with what the store saved, 500 "could not save message" on a store error |
| `Handlers.ListMessages` | sms-store/internal/httpapi/handlers.go:89-97 | always calls the store; 200 with the list exactly when the store succeeds, 500 "could not list messages" otherwise |
| `Handlers.GetUserMessages` | sms-store/internal/httpapi/handlers.go:99-132 | the store is reached exactly when the path yields a valid key, and only with that key; otherwise 400 without a store call; a store error is 500 and any list, even empty, is 200 |
| `Handlers.DeleteAllMessages` | sms-store/internal/httpapi/handlers.go:134-145 | 200 echoing the deleted count, or 500 "could not delete messages" |
| `Handlers.GetConversations` | sms-store/internal/httpapi/handlers.go:148-157 | 200 with the phone numbers, even none, or 500 "could not retrieve conversations" |
| `Handlers.DeleteUserMessages` | sms-store/internal/httpapi/handlers.go:161-196 | same path validation as the read; on success 200 echoing the deleted count and the phone number; 500 on a store error |
| `Handlers.UserMessagesRoutesAgree` | sms-store/internal/httpapi/handlers.go:169-183 | reading and deleting a phone number's messages accept the same paths, reject the others with the same response, and address the same phone number |
| `Handlers.GetProfile` | sms-store/internal/httpapi/handlers.go:200-230 | the store is reached exactly when the path yields a valid key; 200 with the profile, 404 NOT_FOUND carrying the store's text when it mentions "not found", 500 for any other error |
| `Handlers.ProfileChanges` | sms-store/internal/httpapi/handlers.go:236-261 | the path is validated before the body: a bad path is rejected whatever the body; then an undecodable body is 400 "invalid JSON body"; the changes carry the trimmed name and avatar |
| `Handlers.UpdateProfile` | sms-store/internal/httpapi/handlers.go:234-275 | the store is called with the path's phone number and the trimmed body; 200 with the updated profile, 404 when the error says "not found", 500 otherwise |
| `Handlers.NewProfile` | sms-store/internal/httpapi/handlers.go:280-299 | an undecodable body is 400; all three fields are trimmed; an empty phone number is reported before one containing `/`; the profile is accepted exactly when its trimmed phone number is valid |
| `Handlers.CreateProfile` | sms-store/internal/httpapi/handlers.go:279-312 | the store is reached exactly when the body is valid; 201 with the created profile, 409 CONFLICT carrying the store's text when it mentions "already exists", 500 otherwise |
| `Memory.NewMemoryStore` | sms-store/internal/store/memory.go:14-18 | a new store lists no message |
| `Memory.Save` | sms-store/internal/store/memory.go:20-26 | never fails, returns the message given, grows the log by exactly one with the message last, and keeps every earlier message at its position |
| `Memory.List` | sms-store/internal/store/memory.go:28-35 | always succeeds with exactly the stored messages in insertion order |
| `Memory.ListAfterSaves` | sms-store/internal/store/memory.go:24-33 | after any series of saves the listing is the earlier listing followed by the saved messages in order, so an earlier listing is a prefix of every later one |
| `Memory.ListFromNew` | sms-store/internal/store/memory.go:14-33 | a new store that received a batch of messages lists exactly that batch |
| `Profiles.GetProfile` | sms-store/internal/store/profile_store.go:66-82 | succeeds exactly when the phone number is present, with the stored profile; otherwise the not-found error naming the phone number |
| `Profiles.UpdateProfile` | sms-store/internal/store/profile_store.go:85-124 | a missing phone number is a not-found error and nothing changes; otherwise only name, avatar and update time are overwritten, phone number and creation time are kept, the argument phone number is used rather than the body's, and every other profile is untouched |
| `Profiles.CreateProfile` | sms-store/internal/store/profile_store.go:127-161 | an empty phone number fails "phoneNumber is required" and one already present fails "already exists", both leaving the collection unchanged; otherwise the profile is inserted with both timestamps `now` and returned as inserted, and no other entry changes |
| `Profiles.CreateThenGet` | sms-store/internal/store/profile_store.go:147-160 | a lookup right after a successful create returns what the create returned |
| `Profiles.CreateTwiceConflicts` | sms-store/internal/store/profile_store.go:136-141 | a second create under the same phone number fails "already exists" and keeps the first profile |
| `Profiles.UpdateThenGet` | sms-store/internal/store/profile_store.go:104-123 | a lookup right after an update returns the update's result, which keeps the earlier creation time |
| `Service.NotFoundIsRecognised` | sms-store/internal/store/profile_store.go:76 | the store's not-found text contains "not found", the words the handlers look for |
| `Service.AlreadyExistsIsRecognised` | sms-store/internal/store/profile_store.go:140 | the store's duplicate text contains "already exists", the words the handlers look for |
| `Service.ServeCreateMessage` | sms-store/internal/httpapi/handlers.go:72-86 | over a store that saves like `MemoryStore.Save`, a valid message is appended to the log and answered 201; invalid input is 400 with the log unchanged; never 500 |
| `Service.ServeListMessages` | sms-store/internal/httpapi/handlers.go:89-96 | over a store that lists like `MemoryStore.List` the answer is always 200 with the whole log in order |
| `Service.CreatedMessageIsListed` | sms-store/internal/store/memory.go:20-34 | over a store that saves and lists like `MemoryStore`, a message accepted by the create handler is listed last, after everything listed before |
| `Service.ServeGetProfile` | sms-store/internal/httpapi/handlers.go:219-229 | against the profile store: 200 with the stored profile, 404 naming the phone number when absent, never 500 |
| `Service.ServeUpdateProfile` | sms-store/internal/httpapi/handlers.go:263-274 | against the profile store: 200 with the profile carrying the trimmed name and avatar and the new update time, 404 with nothing changed when absent; other profiles never change; never 500 |
| `Service.ServeCreateProfile` | sms-store/internal/httpapi/handlers.go:301-311 | against the profile store: a new phone number is stored and answered 201, one in use is 409 with nothing changed; never 500 |
| `Service.CreatedProfileIsServed` | sms-store/internal/httpapi/handlers.go:286-311 | a profile created through the create handler is what the get handler returns for its trimmed phone number |
| `Service.SecondCreateConflicts` | sms-store/internal/store/profile_store.go:136-141 | a second create for the same trimmed phone number is answered 409 and leaves the collection as the first create left it |

## Left out

- `Ping` (handlers.go:44-46): a constant 200 with no input and no store call.
- `NewHandler`, `writeJSON` and `writeError` (handlers.go:18-40): response headers and JSON encoding. A response is modelled as its status and a body value.
- JSON decoding of request bodies: a body that fails to decode is the input `None`.
- Clock readings: the message id's time stamp, the message creation time and the profile store's `time.Now()` are parameters (`stamp`, `now`).
- The MongoDB message store the server gives the handlers (behind `Save`, `List`, `FindByPhoneNumber`, `DeleteByPhoneNumber`, `DeleteAll` and `GetDistinctPhoneNumbers`) is not part of this model. The handlers take its reply as an arbitrary input; `Service` composes the create and list handlers with the in-memory store's `Save` and `List` instead.
- Profiles.CreateProfile: returns the profile stamped with `now` exactly. The program returns its in-memory value, but MongoDB keeps timestamps as UTC milliseconds, so a later read returns `createdAt` and `updatedAt` rounded to the millisecond. Timestamps here are exact integers and that rounding is not modelled.
- Profiles.UpdateProfile: `updatedAt` equals `now` only up to the same millisecond rounding, because the returned document is read back from storage.
- Profiles.CreateThenGet: the lookup equals the create's result only up to the millisecond rounding of both timestamps.
- Service.ServeUpdateProfile: the 200 body's `updatedAt` equals `now` only up to the millisecond rounding.
- Service.CreatedProfileIsServed: the 200 body of the lookup equals the 201 body of the create only up to the millisecond rounding of both timestamps.
- Storage failures of the profile store other than "not found" and "already exists" (profile_store.go:78, 101, 119-121, 142-144, 157): the map never fails. The handlers still take arbitrary error replies and map them to 500.
- The check-then-insert race resolved by the duplicate-key error (profile_store.go:151-156): in a sequential model both paths give "already exists".
- The 5-second timeouts, the unique index creation whose failure is ignored, and the default collection name (profile_store.go:40-62).
- The `sync.Mutex` of the in-memory store: it only serialises callers.
- Go strings are UTF-8 byte strings; here they are sequences of code points, so invalid UTF-8 is not modelled.
- Go encodes a nil slice as JSON `null` rather than `[]`; lists are modelled as sequences without that distinction.
- The store's `int64` deleted count is a natural number.
- Routing in `cmd/server/main.go` (method dispatch, its own `/messages` suffix check, CORS, startup and shutdown), and the Java `sms-sender` service.
