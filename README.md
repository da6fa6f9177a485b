# harbour-nextcloudnotes sync core in Dafny

This project models the two components of the harbour-nextcloudnotes client that hold its logic:

- **The notes reconciler** (`NotesApp`). It keeps the local, ordered array of JSON note records in step with the Nextcloud Notes server:
  - `createNote` appends a note unless an equal record is already there;
  - `updateNote` overwrites the first record matching by id or by content;
  - `deleteNote` removes the first record with a given id;
  - `updateReply` feeds a server reply back through `updateNote`.

  Non-local changes are forwarded to the connection as POST, PUT and DELETE requests.
- **The connection** (`NextcloudApi`). It holds:
  - the server URL and credentials, with guarded setters that notify only on a real, valid change;
  - the composed server string and the Basic authentication header;
  - the two request templates and their SSL peer verification;
  - the dispatch gate with its in-flight request counter;
  - the server status query and the Login Flow v2 state machine.

Modules:

| file | module | content |
|---|---|---|
| `Wrappers.dfy` | `Wrappers` | `Option`, and `Byte` (an octet) |
| `Sequences.dfy` | `Sequences` | `FirstWhere`, the first position satisfying a predicate, shared by both reconciler scans and the URL reader |
| `Json.dfy` | `Json` | JSON values; `QJsonObject::value`; `QJsonValue::toInt(default)`, `toObject`, `toArray` and `toString` |
| `Utf8.dfy` | `Utf8` | the local 8-bit encoding of the credentials, as UTF-8 (RFC 3629) |
| `Base64.dfy` | `Base64` | base 64 per section 4 of RFC 4648, with its decoder and the round trip |
| `ServerUrl.dfy` | `ServerUrl` | the URL as a record of components, the server string `scheme://host[:port]path`, and a reader that recovers the components from it |
| `NextcloudApi.dfy` | `Nextcloud` | the setters as pure URL changes, SSL verification, error messages, and the class `NextcloudApi` |
| `NotesApp.dfy` | `Notes` | the reconciliation rules as functions on the note array, their lemmas, and the class `NotesApp` |

Each state-changing operation is a method of a class, with field-granular `modifies` clauses. Its `ensures` ties the new state to a specification function of the old state, for example:

- `notes == Updated(old(notes), id, note)`;
- `url == SchemeChange(old(url), scheme).url`.

Lemmas prove what the source promises about those functions.

Notifications (Qt signals) and calls of `setStatus`/`setLoginStatus`/`setCababilitiesStatus` are recorded in a ghost event log `events`. Requests handed to the network layer are recorded in a ghost log `sent`. With these logs, "notifies only when something changed" and "sends exactly one request" can be stated.

Throughout, the URL `server()` describes is the record `ServerPart(url)`, and the composed URL the dispatch gate inspects is taken to have the scheme and host of `url`. For a `Composable` URL (a scheme without a colon, a host without `:` or `/`, no port or a positive one, and an empty or absolute path), `ServerUrl.ServerRoundTrip` supports this: reading the server string back yields exactly `ServerPart(url)`. For other URLs, such as one with a relative path, the model does not claim it (see "Left out").

The URL record carries the query and the fragment as well. No setter reads or writes them, but they take part in `setUrl`'s comparison: a target whose query or fragment differs from the current URL's always runs the six setters and emits `urlChanged`, and `setUrl` never makes them equal.

## Model

| member | source | states |
|---|---|---|
| Json.ToInt | src/apps/notes/notesapp.cpp:72 | `toInt(default)` yields the stored number when the value is a whole number within the 32-bit `int` range, and the default otherwise |
| Json.ToIntOfInt | src/apps/notes/notesapp.cpp:99 | a stored whole `int` reads back as itself whatever the default |
| Utf8.EncodeScalar | src/nextcloudapi.cpp:117 | one to four bytes per character; a single byte (the code itself) exactly for ASCII; continuation bytes in 0x80..0xBF |
| Utf8.Encode | src/nextcloudapi.cpp:117 | `toLocal8Bit` of the credentials, as UTF-8; `EncodeAppend` proves it maps `user + ":" + password` to the two encodings around the colon's byte, `EncodeAscii` that ASCII is kept byte for byte |
| Utf8.EncodeAppend | src/nextcloudapi.cpp:116-117 | encoding `user + ":" + password` is the encoding of the user, the colon's byte, then the encoding of the password |
| Utf8.EncodeAscii | src/nextcloudapi.cpp:117 | an ASCII string encodes byte for byte |
| Base64.EncodeLength | src/nextcloudapi.cpp:117 | the text is 4 characters for every started group of 3 bytes |
| Base64.Encode | src/nextcloudapi.cpp:117 | `toBase64` with padding; `EncodeLength` gives its length, and `RoundTrip` proves `Decode` recovers every byte string from it |
| Base64.DecodeSextet | src/nextcloudapi.cpp:117 | a character decodes only if it is in the alphabet, to the value that encodes back to it |
| Base64.RoundTrip | src/nextcloudapi.cpp:117 | decoding the encoding of any byte string gives the bytes back |
| ServerUrl.Decimal | src/nextcloudapi.cpp:70-71 | the port is written as a non-empty string of decimal digits |
| ServerUrl.DecimalRoundTrip | src/nextcloudapi.cpp:70-71 | those digits denote the port |
| ServerUrl.Server | src/nextcloudapi.cpp:66-74 | the server string `scheme://host[:port]path`; `ServerRoundTrip` proves that, for a `Composable` URL, it reads back as scheme, host, the positive port and path, with no credentials |
| ServerUrl.ServerRoundTrip | src/nextcloudapi.cpp:66-74 | reading the server string back gives scheme, host, the port only when positive, and path, with no user name or password |
| Nextcloud.BasicAuthDecodes | src/nextcloudapi.cpp:113-135 | the header is `Basic ` followed by text that decodes exactly to the encoding of `username:password` |
| Nextcloud.BasicAuth | src/nextcloudapi.cpp:116-118 | the Authorization value built from a user name and password; `BasicAuthDecodes` proves it is `Basic ` followed by text that decodes exactly to `username:password` |
| Nextcloud.DispatchGateOnServerString | src/nextcloudapi.cpp:171-175 | for a well-formed URL the gate accepts, and the server string it composes reads back with the same scheme and host |
| Nextcloud.DispatchAccepted | src/nextcloudapi.cpp:175 | the gate's test without `isValid`: scheme and host non-empty; `DispatchGateOnServerString` proves it holds for every `Composable` URL |
| Nextcloud.SchemeChange | src/nextcloudapi.cpp:86-93 | only the scheme can change; it changes iff the input differs and is `http` or `https`; notifications are emitted iff it changed |
| Nextcloud.HostChange | src/nextcloudapi.cpp:95-102 | only the host changes, to the input; notifications are emitted iff the input differs |
| Nextcloud.PortChange | src/nextcloudapi.cpp:104-111 | only the port can change; it changes iff the input differs and is in 1..65535; notifications are emitted iff it changed |
| Nextcloud.UsernameChange | src/nextcloudapi.cpp:113-123 | only the user name changes; the server string stays; notifications are emitted iff the input differs |
| Nextcloud.PasswordChange | src/nextcloudapi.cpp:125-135 | only the password changes; the server string stays; notifications are emitted iff the input differs |
| Nextcloud.PathChange | src/nextcloudapi.cpp:137-144 | only the path changes, to the input; notifications are emitted iff the input differs |
| Nextcloud.SettersChange | src/nextcloudapi.cpp:54-60 | the six setters in turn leave the target's components, except an invalid scheme or port, which keep the old value |
| Nextcloud.Merged | src/nextcloudapi.cpp:54-59 | the URL the six setters leave: the target's components, except an invalid scheme or port and the query and fragment, which keep the old value; `SettersChange` proves the setters produce it |
| Nextcloud.SchemeNotifies | src/nextcloudapi.cpp:86-93 | `setScheme` notifies about the scheme exactly when it changed, and about no other component |
| Nextcloud.HostNotifies | src/nextcloudapi.cpp:95-102 | `setHost` notifies about the host exactly when it changed, and about no other component |
| Nextcloud.PortNotifies | src/nextcloudapi.cpp:104-111 | `setPort` notifies about the port exactly when it changed, and about no other component |
| Nextcloud.UsernameNotifies | src/nextcloudapi.cpp:113-123 | `setUsername` notifies about the user name exactly when it changed, and about no other component |
| Nextcloud.PasswordNotifies | src/nextcloudapi.cpp:125-135 | `setPassword` notifies about the password exactly when it changed, and about no other component |
| Nextcloud.PathNotifies | src/nextcloudapi.cpp:137-144 | `setPath` notifies about the path exactly when it changed, and about no other component |
| Nextcloud.SettersEndWithUrl | src/nextcloudapi.cpp:54-59 | whatever the six setters emit ends with `urlChanged`, since each setter that changes something emits it last |
| Nextcloud.SettersNotify | src/nextcloudapi.cpp:54-59 | the six setters together notify about exactly the components in which the resulting URL differs from the old one |
| Nextcloud.UrlChange | src/nextcloudapi.cpp:51-64 | an equal URL (query and fragment included) changes nothing and notifies nothing; otherwise the URL becomes the merge, and `urlChanged` with the new URL is the last notification |
| Nextcloud.UrlChangeNeverSettles | src/nextcloudapi.cpp:52-62 | a target whose query or fragment differs from the current URL's is never reached, so every `setUrl` with it notifies again |
| Nextcloud.UrlChangeNotifies | src/nextcloudapi.cpp:51-64 | for a different target, `setUrl` emits a scheme, host, port, user name, password or path notification exactly for the components that changed |
| Nextcloud.UrlChangeServerEvent | src/nextcloudapi.cpp:53-62 | for a different target, `serverChanged` with the new server string comes just before the final `urlChanged` exactly when the composed server string changed |
| Nextcloud.ServerChange | src/nextcloudapi.cpp:76-84 | an input equal to what `server()` describes changes nothing; otherwise scheme, host, port and path are merged and the credentials stay |
| Nextcloud.SetUrlKeepsPortWithoutPort | src/nextcloudapi.cpp:56 | `setUrl` with a URL without a port keeps the previous port |
| Nextcloud.SetUrlServerRoundTrip | src/nextcloudapi.cpp:51-74 | after `setUrl` with a well-formed http(s) URL, the server string reads back as that URL's scheme, host, port and path |
| Nextcloud.VerifySslAsWritten | src/nextcloudapi.cpp:42-49 | as written, neither template's verification mode changes (see Findings) |
| Nextcloud.VerifySslAsWrittenDiscrepancy | src/nextcloudapi.cpp:42-49 | as written, from the initial state, turning verification off leaves certificates verified, and turning it on notifies on every call without changing anything |
| Nextcloud.VerifySslChange | src/nextcloudapi.cpp:42-49 | both templates verify peers exactly when asked to; the notification is emitted exactly when a mode changed |
| Nextcloud.VerifySslIdempotent | src/nextcloudapi.cpp:42-49 | repeating `setVerifySsl` with the same value changes nothing and does not notify |
| Nextcloud.ErrorMessage | src/nextcloudapi.cpp:146-169 | the message is "unknown" exactly for codes other than the five known errors |
| Nextcloud.ErrorMessageDistinct | src/nextcloudapi.cpp:146-169 | each known error has a message of its own |
| Nextcloud.NextcloudApi.constructor | src/nextcloudapi.cpp:4-37 | empty URL; statuses Unknown; status flags false; counter 0; no login session; both templates AutoVerifyPeer, the default configuration's mode; no Authorization header |
| Nextcloud.NextcloudApi.SetVerifySsl | src/nextcloudapi.cpp:42-49 | the templates and the log change as `VerifySslChange` says (the corrected behaviour) |
| Nextcloud.NextcloudApi.SetScheme | src/nextcloudapi.cpp:86-93 | the URL and the log change as `SchemeChange` says; the invariant holds |
| Nextcloud.NextcloudApi.SetHost | src/nextcloudapi.cpp:95-102 | the URL and the log change as `HostChange` says |
| Nextcloud.NextcloudApi.SetPort | src/nextcloudapi.cpp:104-111 | the URL and the log change as `PortChange` says; the port stays absent or in range |
| Nextcloud.NextcloudApi.SetUsername | src/nextcloudapi.cpp:113-123 | as `UsernameChange` says; on a change, the header is rebuilt from the new pair |
| Nextcloud.NextcloudApi.SetPassword | src/nextcloudapi.cpp:125-135 | as `PasswordChange` says; on a change, the header is rebuilt from the new pair |
| Nextcloud.NextcloudApi.SetPath | src/nextcloudapi.cpp:137-144 | the URL and the log change as `PathChange` says |
| Nextcloud.NextcloudApi.ApplySetters | src/nextcloudapi.cpp:54-60 | the six setter calls change the URL and the log as `SettersChange` says; the header encodes the final pair if either part changed |
| Nextcloud.NextcloudApi.SetUrl | src/nextcloudapi.cpp:51-64 | the URL and the log change as `UrlChange` says; the header encodes the final credentials whenever they changed |
| Nextcloud.NextcloudApi.SetServer | src/nextcloudapi.cpp:76-84 | the URL and the log change as `ServerChange` says; the header is untouched |
| Nextcloud.NextcloudApi.Server | src/nextcloudapi.cpp:66-74 | the server string of the current URL; `ServerUrl.ServerRoundTrip` states what it keeps of the URL |
| Nextcloud.NextcloudApi.RequestFor | src/nextcloudapi.cpp:176-177 | the request goes to the current server string; an anonymous request never carries credentials; an authenticated one carries the header of the current pair |
| Nextcloud.NextcloudApi.Dispatch | src/nextcloudapi.cpp:171-239 | accepted iff the composed URL has a scheme and a host; the counter rises by one and exactly one request is sent iff accepted |
| Nextcloud.NextcloudApi.Get | src/nextcloudapi.cpp:171-186 | the gate, with a GET of the endpoint |
| Nextcloud.NextcloudApi.Post | src/nextcloudapi.cpp:188-204 | the gate, with a POST of the body |
| Nextcloud.NextcloudApi.Put | src/nextcloudapi.cpp:206-222 | the gate, with a PUT of the body |
| Nextcloud.NextcloudApi.Del | src/nextcloudapi.cpp:224-239 | the gate, with a DELETE of the endpoint |
| Nextcloud.NextcloudApi.GetStatus | src/nextcloudapi.cpp:241-250 | an anonymous GET of the status endpoint; status Busy and true when accepted, Failed and false otherwise |
| Nextcloud.NextcloudApi.InitiateFlowV2Login | src/nextcloudapi.cpp:252-265 | aborts first when Initiating or Polling; then an anonymous POST; accepted gives Initiating and true; rejected gives Failed then Unknown, a cleared session and false |
| Nextcloud.NextcloudApi.AbortFlowV2Login | src/nextcloudapi.cpp:267-273 | from any state: timer stopped, login URL, poll URL and token empty, status Unknown. The final state does not depend on the initial one, so the call is idempotent |
| Nextcloud.NextcloudApi.PollLoginUrl | src/nextcloudapi.cpp:287-297 | an anonymous POST of `token=<pollToken>` to the poll path; accepted gives Polling and true with the session kept; rejected gives Failed then Unknown, a cleared session and false |
| Nextcloud.NextcloudApi.FinishLoginStep | src/nextcloudapi.cpp:256-263 | an accepted request sets the next flow status and keeps the session; a rejected one records Failed, then aborts: session cleared, status Unknown |
| Nextcloud.NextcloudApi.VerifyLogin | src/nextcloudapi.cpp:275-277 | an authenticated GET of the current user's capabilities, through the gate |
| Nextcloud.NextcloudApi.GetAppPassword | src/nextcloudapi.cpp:279-281 | an authenticated GET of the app password endpoint, through the gate |
| Nextcloud.NextcloudApi.DeleteAppPassword | src/nextcloudapi.cpp:283-285 | an authenticated DELETE of the app password endpoint, through the gate |
| Notes.RecordId | src/apps/notes/notesapp.cpp:71-72 | a record's id is the number stored under `id` when that is a whole 32-bit `int`, and otherwise the default |
| Notes.Created | src/apps/notes/notesapp.cpp:52-57 | the note is in the array afterwards; an array already holding an equal record is unchanged; otherwise exactly one record, the note, is appended after the old array |
| Notes.CreateIdempotent | src/apps/notes/notesapp.cpp:52-57 | creating the same note twice equals creating it once |
| Notes.CreateNoDuplicate | src/apps/notes/notesapp.cpp:54-57 | a new note occurs exactly once afterwards; every other record keeps its count |
| Notes.MatchesUpdate | src/apps/notes/notesapp.cpp:71-84 | the scan test: a positive id (read with default -1) matches on the id, otherwise equal `content` matches; `UpdateReplacesFirstMatch` proves the first such record is the one replaced |
| Notes.UpdateDone | src/apps/notes/notesapp.cpp:66-86 | the local result of `updateNote`; `UpdateDoneIffPresent` proves it is true exactly when the note is in the array afterwards |
| Notes.Updated | src/apps/notes/notesapp.cpp:64-86 | the length is kept; an equal record present means no change; any changed position now holds the note |
| Notes.UpdateReplacesFirstMatch | src/apps/notes/notesapp.cpp:68-85 | without an equal record, exactly the first matching record (positive id equal, or no positive id and equal `content`) is overwritten, and nothing else |
| Notes.UpdateWithoutMatch | src/apps/notes/notesapp.cpp:68-86 | with no matching record the array is unchanged: `updateNote` never inserts |
| Notes.UpdateDoneIffPresent | src/apps/notes/notesapp.cpp:66-90 | a local update returns true exactly when the note is in the array afterwards |
| Notes.UpdateIdempotent | src/apps/notes/notesapp.cpp:64-86 | applying the same update twice equals applying it once |
| Sequences.RemoveAt | src/apps/notes/notesapp.cpp:100 | erasing one position keeps the records before it and shifts the ones after it down by one |
| Sequences.RemoveAtMultiset | src/apps/notes/notesapp.cpp:100 | erasing one position removes exactly that record from the collection |
| Notes.MatchesDelete | src/apps/notes/notesapp.cpp:98-99 | the scan test: the id read with default 0 equals the given id; `DeleteRemovesFirstMatch` proves the first such record is the one removed |
| Notes.HasId | src/apps/notes/notesapp.cpp:95-107 | the local result of `deleteNote`; `Deleted` proves a record is removed exactly when it holds |
| Notes.Deleted | src/apps/notes/notesapp.cpp:93-103 | the length drops by one iff some record has the id (read with default 0), else nothing changes; no record is added |
| Notes.DeleteRemovesFirstMatch | src/apps/notes/notesapp.cpp:97-102 | exactly the first record with the id is removed, and the others keep their order |
| Notes.DeleteTwice | src/apps/notes/notesapp.cpp:93-107 | when only one record has the id, it is gone afterwards and a second delete changes nothing |
| Notes.ReplyId | src/apps/notes/notesapp.cpp:118 | the id a reply object is applied under, read with default 0; `UnknownReplyIgnored` proves that a positive id that no local record holds (all local ids being positive) changes nothing |
| Notes.ApplyEach | src/apps/notes/notesapp.cpp:121-126 | applying a reply array keeps the length of the note array |
| Notes.AppliedReply | src/apps/notes/notesapp.cpp:110-131 | every reply keeps the length; an invalid reply changes nothing |
| Notes.ApplyEachFirstToLast | src/apps/notes/notesapp.cpp:123-126 | the reply array is applied element by element from first to last |
| Notes.ApplyEachFromReply | src/apps/notes/notesapp.cpp:121-126 | every record after a reply is an old record or one of the reply's objects |
| Notes.UnknownReplyIgnored | src/apps/notes/notesapp.cpp:116-119 | a reply about a note unknown locally (positive ids that all differ) leaves the array unchanged |
| Notes.VersionOf | src/apps/notes/notesapp.cpp:34 | a value that is not a string reads as an empty version text |
| Notes.NotesApp.constructor | src/apps/notes/notesapp.cpp:3-6 | empty note array, empty capabilities, the given connection |
| Notes.NotesApp.ServerVersion | src/apps/notes/notesapp.cpp:25-27 | without a `version` capability the version text is empty |
| Notes.NotesApp.ApiVersions | src/apps/notes/notesapp.cpp:29-37 | exactly one version per element of `api_version`, in the same order |
| Notes.NotesApp.GetAllNotes | src/apps/notes/notesapp.cpp:39-45 | an authenticated GET of the notes collection with the exclusion list, through the gate |
| Notes.NotesApp.GetNote | src/apps/notes/notesapp.cpp:47-50 | an authenticated GET of `notes/<id>`, through the gate |
| Notes.NotesApp.CreateNote | src/apps/notes/notesapp.cpp:52-62 | the array becomes `Created`; local returns true and sends nothing; otherwise the POST result, with exactly one POST when accepted |
| Notes.NotesApp.UpdateNote | src/apps/notes/notesapp.cpp:64-91 | the loop leaves `Updated`; local returns `UpdateDone` and sends nothing; otherwise the PUT result, whether or not a record matched |
| Notes.NotesApp.DeleteNote | src/apps/notes/notesapp.cpp:93-108 | the loop leaves `Deleted`; local returns whether a record had the id; otherwise the DELETE result |
| Notes.NotesApp.UpdateReply | src/apps/notes/notesapp.cpp:110-131 | the array becomes `AppliedReply`; no request is sent |

## Left out

- Qt networking is not modelled beyond the `sent` log: the network manager, replies, and the signal and slot wiring, including the `verifyUrl` slot connected to `urlChanged`. The same goes for the user agent and content-type headers of the templates, which are fixed at construction.
- Nextcloud.DispatchAccepted: `QUrl::isValid` is not part of the gate. The model accepts whenever scheme and host are non-empty. This includes a URL whose path is relative (`setPath` accepts one): the model composes `https://habc` from host `h` and path `abc` and accepts it, while `QUrl` treats an authority followed by a relative path as invalid.
- URL parsing and normalisation by `QUrl` is not modelled. This covers `setServer`'s string input, which is taken already parsed and trimmed, and the path joining done by the dispatch methods. Requests record the server string and a symbolic endpoint instead.
- The endpoint paths, the poll interval and the numeric values of the status and error enumerations live in headers that are not part of this model. Endpoints are symbolic values of `Endpoint`.
- The request overloads used by `getAllNotes` and `getNote` (with a query, or with defaulted arguments) are declared in a header that is not part of this model. They are modelled as authenticated GETs through the same gate.
- The timer is a `timerRunning` flag; its timeouts, which re-poll, are event-loop behaviour.
- Handling of login-flow and status replies is not in the modelled files. The same holds for decrementing the in-flight counter and for the bodies of the status setters. The setters are recorded as log entries.
- Nextcloud.NextcloudApi.Dispatch: the counter is an unbounded `nat`; the overflow of the C++ `int` is not modelled.
- JSON text: `QJsonDocument::fromJson` and `toJson` are not modelled. Replies arrive as a parsed `Document`, and bodies are sent as the note object.
- Notes.VersionOf: `QVersionNumber::fromString` is kept uninterpreted (`VersionNumber` wraps the text). Version parsing and comparison are not modelled.
- Utf8.EncodeScalar: `toLocal8Bit` is modelled for a UTF-8 locale only.
- `tr()` translations become message tags (`ErrorText`), and `qDebug` logging is dropped.
- The QML singleton (`instance`, `instantiate`, `getInstance`, `provider`) and the proxy model wiring are left out.
- src/harbour-nextcloudnotes.cpp (application start-up) is not part of this model.
- Aliasing is not modelled. `QJsonArray` and `QUrl` are implicitly shared values in Qt, so they are Dafny values here.

## Findings

| source | as written | input that shows it | evidently intended | confidence | as-written member | corrected member |
|---|---|---|---|---|---|---|
| src/nextcloudapi.cpp:42-49 | `setPeerVerifyMode` is called on the copy that `QNetworkRequest::sslConfiguration()` returns, so neither template changes. The guard compares with `VerifyPeer`, but the templates start in `AutoVerifyPeer`. | A fresh connection and `setVerifySsl(false)`: no notification, and certificates are still verified. Then `setVerifySsl(true)` twice: two notifications, and nothing changes. | Both templates stop or start verifying as asked, with one notification per actual change. | high; not executed | Nextcloud.VerifySslAsWritten, Nextcloud.VerifySslAsWrittenDiscrepancy | Nextcloud.VerifySslChange, Nextcloud.VerifySslIdempotent, used by Nextcloud.NextcloudApi.SetVerifySsl |
