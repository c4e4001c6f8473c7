# Workshop registration service: a Dafny model

The system is the backend and front end of a workshop-registration site.
Attendees register publicly. The public pages list sessions and speakers.
An administrator logs in with a shared password, receives a signed token,
and then lists attendees, views a designation histogram, and edits speakers
and sessions. Data lives in a document store of named collections. Tests use
an in-memory table in its place.

The model covers:

- **Records** (`Models`): registrations, speakers, sessions and the designation
  breakdown. It covers how each record is written to a stored document and to
  JSON, and how a stored document is read back. The id is never stored. Empty
  speaker links are omitted. A missing or null field reads back as the zero
  value, and a field of the wrong kind is a decode failure.
- **The in-memory table** (`MockStore`): specification functions `Lookup`,
  `Put`, `Remove` and `Contents` over the table as a value. The class
  `MockDB` keeps the table in a field and updates it in place.
- **Shared handler vocabulary** (`Handlers`): the reply (status plus body or
  error message) and the mapping of store errors to 404/500. It also models
  the store's document iterator as the sequence of what successive `Next()`
  calls return, and the decoding of the yielded documents in order.
- **Admin handlers** (`Admin`): login, the attendee list, one attendee, and
  the designation histogram. The histogram is specified by a multiset tally
  of the decodable registrations.
- **Registration handlers** (`Registrations`): self-registration and the
  registration counter.
- **Speaker and session handlers** (`Speakers`, `Sessions`): listing,
  creating, replacing and deleting.
- **Configuration** (`Configuration`): loading from an environment map.
- **Server start-up** (`Server`): the CORS origin trim, the fallback for
  unmatched paths, the listening port, and which routes sit behind the
  admin authentication middleware.
- **Front-end HTTP client** (`ApiClient`): the request interceptor that
  attaches the admin token.
- **Sessions page** (`SessionsSpeakers`): the join of sessions with their
  speakers.

External effects are parameters of the modelled operations:

- the store's errors and the ids it assigns (a new id is non-empty and not yet in use);
- the current time;
- a signing failure;
- the request binder's error text and its email check;
- file reading, base64 decoding and JSON parsing.

## Model

| member | source | states |
|---|---|---|
| Models.OmitEmpty | backend/internal/models/models.go:17-19 | an `omitempty` string field is present exactly when the string is non-empty, and then holds it |
| Models.RegistrationDoc | backend/internal/models/models.go:5-11 | the stored registration has exactly the keys name, email, designation and createdAt, each holding its field even when empty, and no `id` |
| Models.RegistrationJson | backend/internal/models/models.go:5-11 | the JSON form is the stored form plus `id` |
| Models.SpeakerLinks | backend/internal/models/models.go:17-19 | each of imageUrl, linkedinUrl, twitterUrl is present iff non-empty; no other keys |
| Models.SpeakerDoc | backend/internal/models/models.go:13-20 | exactly the keys name, bio and the non-empty links, each holding its field; no `id`; name and bio always written |
| Models.SpeakerJson | backend/internal/models/models.go:13-20 | the JSON form is the stored form plus `id` |
| Models.SessionDoc | backend/internal/models/models.go:22-29 | the stored session has exactly the keys title, description, time, duration and speakerIds, each holding its field even when empty, and no `id` |
| Models.SessionJson | backend/internal/models/models.go:22-29 | the JSON form is the stored form plus `id` |
| Models.BreakdownJson | backend/internal/models/models.go:31-34 | a breakdown's JSON has exactly the keys designation and count, holding its two fields |
| Models.StringField | backend/internal/models/models.go:7-9 | a missing string field decodes to "" |
| Models.TimeField | backend/internal/models/models.go:10 | a missing time field decodes to Go's zero time |
| Models.StringsField | backend/internal/models/models.go:28 | a missing string-list field decodes to the empty list |
| Models.RegistrationFromDoc | backend/internal/models/models.go:5-11 | a decoded registration never takes its id from the document |
| Models.SpeakerFromDoc | backend/internal/models/models.go:13-20 | a decoded speaker never takes its id from the document |
| Models.SessionFromDoc | backend/internal/models/models.go:22-29 | a decoded session never takes its id from the document |
| Models.RegistrationRoundTrip | backend/internal/models/models.go:5-11 | storing then reading a registration gives it back with only the id lost |
| Models.SpeakerRoundTrip | backend/internal/models/models.go:13-20 | storing then reading a speaker gives it back with only the id lost, empty links included |
| Models.SessionRoundTrip | backend/internal/models/models.go:22-29 | storing then reading a session gives it back with only the id lost |
| Models.RegistrationIgnoresOtherKeys | backend/internal/models/models.go:6 | a stored `id` key, or any key that differs from every registration field name even up to case, does not affect decoding |
| MockStore.Lookup | backend/internal/database/mock.go:56-65 | a document is found iff both the collection and the id exist |
| MockStore.Put | backend/internal/database/mock.go:47-54 | the collection exists afterwards, the new document is found at its id, every other (collection, id) is unchanged |
| MockStore.Remove | backend/internal/database/mock.go:81-87 | the collections are kept, the id is gone, every other (collection, id) is unchanged |
| MockStore.Contents | backend/internal/database/mock.go:67-79 | a collection's contents are exactly its stored documents; an absent collection has none |
| MockStore.LookupAfterPut | backend/internal/database/mock.go:47-65 | after a put, the get returns the document, and the collection is the old one with that id overwritten |
| MockStore.RemoveIdempotent | backend/internal/database/mock.go:81-87 | deleting twice is deleting once |
| MockStore.RemoveAfterPut | backend/internal/database/mock.go:81-87 | deleting the only document leaves the collection present and empty |
| MockStore.MockDB.constructor | backend/internal/database/mock.go:22-29 | a fresh table has no collections and the id counter at 1 |
| MockStore.MockDB.AddDocument | backend/internal/database/mock.go:47-54 | the new table is `Put` of the old one; the id counter is untouched |
| MockStore.MockDB.GetDocument | backend/internal/database/mock.go:56-65 | returns the document and true iff the collection and id exist, otherwise an empty document and false |
| MockStore.MockDB.GetAllDocuments | backend/internal/database/mock.go:67-79 | the copy has exactly the collection's keys and documents, or is empty for an absent collection |
| MockStore.MockDB.DeleteDocument | backend/internal/database/mock.go:81-87 | the new table is `Remove` of the old one |
| Handlers.StoreErrorReply | backend/internal/handlers/speakers.go:68-74 | a NotFound store error gives 404 with the not-found message; any other gives 500 with the failure message |
| Handlers.Decoded | backend/internal/handlers/admin.go:64-69 | the listing of the yielded documents that decode, in order, is never longer than the documents; the three list loops are proved against it |
| Handlers.Items | backend/internal/handlers/admin.go:54-62 | an iteration without error yields one document per step |
| Handlers.DecodedAppend | backend/internal/handlers/admin.go:54-70 | listing keeps iteration order: it distributes over concatenation |
| Handlers.DecodedMember | backend/internal/handlers/admin.go:64-69 | a record is listed iff some yielded document decodes to it |
| Admin.AdminLogin | backend/internal/handlers/admin.go:24-49 | 400 for a missing or empty password, 401 for a wrong one, 500 on signing failure; 200 iff the password matches the configured non-empty one, with claims admin=true and exp=now+86400 signed with that password |
| Admin.TokenOnlyForConfiguredPassword | backend/internal/handlers/admin.go:31-42 | a token is only issued for the configured password and expires 24 hours after issue |
| Admin.AttendeeOf | backend/internal/handlers/admin.go:64-68 | a listed attendee decodes from its document and takes the document's id |
| Admin.GetAttendees | backend/internal/handlers/admin.go:51-73 | an iterator error gives 500 and no partial list; otherwise 200 with the decodable registrations in order, null when there are none |
| Admin.ListedAttendee | backend/internal/handlers/admin.go:64-69 | an attendee is listed iff a yielded document with its id decodes to it |
| Admin.GetAttendee | backend/internal/handlers/admin.go:75-95 | 404 on not found, 500 on another store error or a decode failure, otherwise the stored registration with the path id |
| Admin.Designations | backend/internal/handlers/admin.go:110-114 | the tally has one element per registration and holds exactly the designations that occur |
| Admin.GetDesignationBreakdown | backend/internal/handlers/admin.go:97-126 | an iterator error gives 500; otherwise each designation of a decodable registration appears once with its count, null when there are none |
| Admin.Entries | backend/internal/handlers/admin.go:117-123 | the second loop lists every key of the count map once with its count |
| Admin.EntriesAreBreakdown | backend/internal/handlers/admin.go:117-123 | listing the counts gives a breakdown of the tally, empty iff the tally is |
| Admin.TallyStep | backend/internal/handlers/admin.go:110-114 | one more yielded document adds its designation to the tally iff it decodes |
| Admin.CountsOfAdd | backend/internal/handlers/admin.go:114 | incrementing a designation's counter keeps the counter map equal to the tally |
| Admin.MultisetSplit | backend/internal/handlers/admin.go:118-123 | a designation's count plus the rest's size is the total |
| Admin.BreakdownSum | backend/internal/handlers/admin.go:98-123 | the breakdown's counts sum to the size of the tally |
| Admin.BreakdownMatchesAttendees | backend/internal/handlers/admin.go:98-123 | the counts sum to the number of decodable registrations, at most the number of documents |
| Registrations.Binds | backend/internal/handlers/registration.go:13-24 | a body that is not a JSON object, lacks any of the three fields or has an email failing the email check does not bind |
| Registrations.NewRegistration | backend/internal/handlers/registration.go:26-32 | the record copies name, email and designation verbatim and is stamped with the request time |
| Registrations.Register | backend/internal/handlers/registration.go:19-42 | a binding failure gives 400 with the binder's message; a store error gives 500; both store nothing; otherwise the record is stored under the new id, fresh and non-empty, so the collection gains exactly that one document, and 201 returns it with that id |
| Registrations.RegisteredIsStored | backend/internal/handlers/registration.go:27-40 | the stored registration reads back with the same fields |
| Registrations.GetRegistrationCount | backend/internal/handlers/registration.go:44-60 | an iterator error gives 500; otherwise 200 with the number of yielded documents, decodable or not |
| Registrations.CountBoundsBreakdown | backend/internal/handlers/registration.go:44-60 | the count is at least the histogram's total |
| Speakers.SpeakerOf | backend/internal/handlers/speakers.go:27-32 | a listed speaker decodes from its document and takes the document's id |
| Speakers.GetSpeakers | backend/internal/handlers/speakers.go:14-40 | an iterator error gives 500; otherwise 200 with the decodable speakers in order, an empty array when there are none |
| Speakers.CreateSpeaker | backend/internal/handlers/speakers.go:42-57 | 400 on a binding failure, 500 on a store error, both storing nothing; otherwise stored under the fresh, non-empty new id, so the collection gains exactly that one document, and returned with it |
| Speakers.UpdateSpeaker | backend/internal/handlers/speakers.go:59-79 | 400 on a binding failure; 404/500 on a store error; otherwise the whole document at the id is replaced and returned with the path id |
| Speakers.DeleteSpeaker | backend/internal/handlers/speakers.go:81-94 | 404/500 on a store error with the table unchanged; otherwise the document is removed and a success message returned |
| Speakers.UpdateReplacesWholeDocument | backend/internal/handlers/speakers.go:67 | after an update the stored speaker is exactly the body, with no field merged from the old document |
| Speakers.ListedSpeaker | backend/internal/handlers/speakers.go:27-32 | a speaker is listed iff a yielded document with its id decodes to it |
| Sessions.SessionOf | backend/internal/handlers/sessions.go:27-32 | a listed session decodes from its document and takes the document's id |
| Sessions.GetSessions | backend/internal/handlers/sessions.go:14-40 | an iterator error gives 500; otherwise 200 with the decodable sessions in order, an empty array when there are none |
| Sessions.CreateSession | backend/internal/handlers/sessions.go:42-57 | 400 on a binding failure, 500 on a store error, both storing nothing; otherwise stored under the fresh, non-empty new id, so the collection gains exactly that one document, and returned with it |
| Sessions.UpdateSession | backend/internal/handlers/sessions.go:59-79 | 400 on a binding failure; 404/500 on a store error; otherwise the whole document at the id is replaced and returned with the path id |
| Sessions.DeleteSession | backend/internal/handlers/sessions.go:81-94 | 404/500 on a store error with the table unchanged; otherwise the document is removed and a success message returned |
| Sessions.UpdateReplacesWholeDocument | backend/internal/handlers/sessions.go:67 | after an update the stored session is exactly the body |
| Sessions.ListedSession | backend/internal/handlers/sessions.go:27-32 | a session is listed iff a yielded document with its id decodes to it |
| Configuration.MessagesDistinct | backend/internal/config/config.go:24-60 | every load error carries its own text |
| Configuration.IsInline | backend/internal/config/config.go:30 | a value is inline data iff it is longer than 7 characters and starts "base64:", so something follows the prefix |
| Configuration.Getenv | backend/internal/config/config.go:22 | an unset variable reads as empty |
| Configuration.ServiceAccount | backend/internal/config/config.go:27-47 | values over 7 characters starting "base64:" are decoded, others read as a file; a decode failure, an unreadable file and a parse failure each give their own error; a good decode or read followed by a good parse gives the parsed JSON |
| Configuration.OrDefault | backend/internal/config/config.go:64-73 | an empty value takes the default |
| Configuration.Load | backend/internal/config/config.go:18-76 | a missing service account is an error; on success the config holds the loaded service account JSON, the subcollection id and password are the non-empty variables, and port and CORS origin default to 8080 and http://localhost:5173 |
| Configuration.LoadSucceedsIff | backend/internal/config/config.go:18-76 | loading succeeds iff the service account is given and loads, and both required variables are set |
| Configuration.FirstFailureReported | backend/internal/config/config.go:21-61 | the checks run in order and the first failing one is reported |
| Configuration.BarePrefixIsPath | backend/internal/config/config.go:30 | exactly "base64:" is read as a file path, not decoded |
| Server.TrimTrailingSlash | backend/main.go:49 | the result is a prefix of the origin, at most one character shorter, and differs iff the origin ends in a slash |
| Server.TrimUndoesOneSlash | backend/main.go:49 | only one trailing slash is removed |
| Server.NoRoute | backend/main.go:110-124 | paths starting "/api" or "/assets" get a JSON 404; any other gets the index page iff it exists, else a "Frontend not found" 404 |
| Server.PrefixNotSegment | backend/main.go:112 | the test is on characters: "/apiary" counts as an API path |
| Server.ServerPort | backend/main.go:128-134 | PORT wins, then the configured port, then 8080; never empty |
| Server.PortFromLoadedConfig | backend/main.go:128-134 | with a loaded configuration the server listens on PORT or 8080 |
| Server.Mount | backend/main.go:82-106 | a group registers at most one route per statement |
| Server.MountAfterUseGated | backend/main.go:93-106 | every route registered after the middleware is gated |
| Server.MountBeforeUseOpen | backend/main.go:91-92 | routes registered before any middleware are not gated |
| Server.MountOrigin | backend/main.go:82-106 | every route comes from one registration, under the group's prefix |
| Server.MountSplit | backend/main.go:91-106 | a group splits at its middleware into open and gated routes |
| Server.MountUnderPrefix | backend/main.go:82-106 | every route of a group lies under its prefix |
| Server.PublicRoutes | backend/main.go:82-88 | the public group under /api registers its four routes, one per statement |
| Server.AdminRoutes | backend/main.go:90-106 | the admin group under /api/admin registers login, then the middleware, then eleven routes: twelve routes in all |
| Server.PublicRoutesOpen | backend/main.go:82-88 | no public route is gated |
| Server.AdminRoutesGated | backend/main.go:90-106 | an admin route is gated iff it is not login |
| Server.LoginOpen | backend/main.go:91-92 | the login route is not gated |
| Server.OthersGated | backend/main.go:93-106 | every other admin route is gated |
| ApiClient.RequestConfig.constructor | frontend/src/api/client.ts:6-11 | a request carries its url and headers |
| ApiClient.Truthy | frontend/src/api/client.ts:17 | a missing or empty stored token is falsy |
| ApiClient.BearerHeader | frontend/src/api/client.ts:15-19 | a header is added iff the stored token is non-empty and the url starts with "/api/admin"; its value is "Bearer " + token |
| ApiClient.Intercept | frontend/src/api/client.ts:14-21 | returns the same request object; only the Authorization header may change, and it changes exactly as `BearerHeader` says |
| ApiClient.PublicRequestsCarryNoToken | frontend/src/api/client.ts:16-17 | requests under /api outside /api/admin never carry the token |
| ApiClient.PrefixNotSegment | frontend/src/api/client.ts:17 | "/api/administrator" gets the header, "/api/admi" does not, and an empty token never does |
| SessionsSpeakers.KeyOf | frontend/src/components/SessionsSpeakers.tsx:22 | a speaker without an id is matched on "" |
| SessionsSpeakers.SpeakersFor | frontend/src/components/SessionsSpeakers.tsx:21-23 | a session's speakers are fetched speakers whose id it names, no more of them than were fetched |
| SessionsSpeakers.IdsOf | frontend/src/components/SessionsSpeakers.tsx:22 | a session's named ids, none when the list is null |
| SessionsSpeakers.WithSpeakers | frontend/src/components/SessionsSpeakers.tsx:19-24 | the join fails iff some speaker was fetched and some session's speakerIds is null; otherwise one entry per session, in order, each session unchanged, with the speakers it names |
| SessionsSpeakers.PageOf | frontend/src/components/SessionsSpeakers.tsx:11-31 | the page lists the sessions iff both requests succeed and the join does not fail; otherwise it shows "Failed to load sessions and speakers"; the listed entries are exactly the join |
| SessionsSpeakers.NullIdsHarmlessWithoutSpeakers | frontend/src/components/SessionsSpeakers.tsx:21-23 | with no speakers fetched, the join succeeds and every session lists no one |
| SessionsSpeakers.NullIdsFailPage | frontend/src/components/SessionsSpeakers.tsx:21-31 | one session with a null speakerIds blanks the whole page once any speaker exists |
| SessionsSpeakers.SpeakersForMember | frontend/src/components/SessionsSpeakers.tsx:21-23 | a speaker is listed iff it was fetched and its id is named |
| SessionsSpeakers.SpeakersForAppend | frontend/src/components/SessionsSpeakers.tsx:21-23 | speakers keep the fetched list's order |
| SessionsSpeakers.SpeakersForNoDuplicates | frontend/src/components/SessionsSpeakers.tsx:21-23 | a speaker is listed no more often than it was fetched |
| SessionsSpeakers.SpeakersForIdSet | frontend/src/components/SessionsSpeakers.tsx:22 | only the set of ids matters: repeats and order in `speakerIds` change nothing |
| SessionsSpeakers.UnmatchedIdDropped | frontend/src/components/SessionsSpeakers.tsx:21-23 | an id with no fetched speaker is dropped silently |
| SessionsSpeakers.SpeakerWithoutId | frontend/src/components/SessionsSpeakers.tsx:22 | a speaker without an id is listed iff the session names "" |

## Left out

- The table's mutex and the `Collection` accessor that returns nil are test scaffolding. So are its context and configuration fields. They are not modelled.
- The document store's client setup is not modelled. Neither are credentials or the collection path `workshops/<SubcollectionID>/<name>`. Handlers work on one table per collection name.
- Token encoding and HMAC-SHA256 signing (RFC 7519, HS256 per section 3.2 of RFC 7518) are not modelled. A token is an opaque value made of its claims and key. A signing failure is a parameter.
- The admin authentication middleware's source is not part of this model. Only the position of the middleware among the route registrations is modelled.
- The binder's email syntax check is an uninterpreted parameter `isEmail`. The binder's error text is a parameter `bindText`.
- Speakers and sessions carry no validation tags, so a name is not required. The model binds any JSON object, and a body that does not bind is `None`.
- Admin.AdminLogin: the request body is given as already bound. `None` means the body did not bind, and otherwise it holds the password string.
- `time.Now`, `os.Getenv`, file reading, base64 decoding and JSON parsing are not modelled. They are parameters: a time value, an environment map, and functions returning an `Option`.
- The backend model does not tell a nil list from an empty list in a session's speaker ids. The stored document and the JSON reply write a nil list as null. The sessions page does model the null: `SessionsSpeakers.WithSpeakers` fails the join on it, as the page does.
- MockStore.MockDB.AddDocument: the table keeps the caller's document map by reference. The model copies values, so later changes the caller makes to that map are not seen in the table.
- MockStore.MockDB.GetAllDocuments: the copy is shallow. Its documents are shared with the table, so a change to a returned document changes the stored one. The model copies values, so this aliasing is not captured.
- Models.RegistrationFromDoc, Models.SpeakerFromDoc, Models.SessionFromDoc: the store client matches a stored key to a field exactly first, then case-insensitively. The model matches keys exactly, so a key such as "Name" is not read into a field.
- Admin.GetDesignationBreakdown: the order of entries follows Go's unspecified map iteration. The model picks any order, so no order is promised.
- Response wrapper keys are not modelled: `{"token": ...}`, `{"count": ...}`, `{"message": ...}` and `{"error": ...}`. Replies carry the value or the message directly.
- Documents are maps from key to a small value type. Go's `DataTo` conversions between numeric kinds are not modelled. A field of another kind fails to decode.
- Registration timestamps are integer seconds. Sub-second precision is not modelled.
- The configuration test expects a missing `FIREBASE_SERVICE_ACCOUNT` to be accepted on Cloud Run. The loader rejects it unconditionally, and the model follows the loader.
- Gin's routing, CORS middleware options other than the origin, static file serving and godotenv are framework plumbing and are not modelled.
- Several parts of the sessions page are not modelled: its loading state and the concurrent fetch of sessions and speakers are UI state, and the markup is presentation. Its error state is modelled by `SessionsSpeakers.PageOf`.
- The rest of the React UI (dashboard, registration form, static pages) and the thin endpoint wrappers are not modelled.
