# ding-rs client core, modelled in Dafny

This project models the core of `ding-rs`, the Rust client library for the
linkding bookmark service's REST API. It covers:

- the request parameter bundles and their paging setters (`IterableRequest`);
- the create/update payload `BookmarkRequest` and its JSON form, where unset
  fields are skipped;
- the record and page-envelope types, and the `empty_url` decode step for
  `web_archive_snapshot_url`;
- the two-kind error type `DingError`;
- `DingClient`: its request builders, the send pipeline that checks the
  status before anything decodes the body, and every public operation with
  its HTTP method, path, query and body;
- the fetch-all loop `_load_all`, proved against a transcript of the page
  calls it makes, and against a model server that serves a collection in
  fixed-size slices.

Files:

| file | module | models |
|---|---|---|
| `base.dfy` | `Base` | `Option`, `Result` with `?` (Dafny's `:-`), `u64`, decimal `to_string` |
| `http.dfy` | `Http` | stand-ins for `url::Url`, `reqwest` requests and responses, `reqwest::Error`, `error_for_status`, and the dropping of absent values |
| `errors.dfy` | `Errors` | `ding-rs/src/errors.rs` |
| `types.dfy` | `Types` | `ding-rs/src/types.rs` |
| `pagination.dfy` | `Pagination` | `DingClient::_load_all` (`ding-rs/src/client.rs:187-210`) |
| `client.dfy` | `Client` | the rest of `ding-rs/src/client.rs` |

The client never changes after construction, so `DingClient` is a datatype.
Its single-request operations are functions. The fetch-all routine mutates
an offset and an accumulator in a loop, so it is a method with a `while`
loop, proved against the ghost function `Transcript`. `Transcript` lists the
page calls the loop makes, in order: each call's offset, the bundle sent and
the answer. `Collected` says what the loop returns after such a transcript.

The client receives its collaborators as functions in a `Library` record:
- `Url::join`;
- `RequestBuilder::send`;
- the serde decoders of each response body.

The page call of `_load_all` is a function from a parameter bundle to a page
or an error.

Three facts about the code and `reqwest` shape the error model:
- `error_for_status` rejects only 4xx and 5xx statuses; a 1xx or 3xx
  response that reaches it passes (`Http.IsErrorStatus`).
- A 404 on `bookmark(id)` is an ordinary `Request` error carrying the
  status. The code has no separate not-found kind.
- The tag list path is `api/tags`, without the trailing slash the other
  collection paths have.

## Model

| member | source | states |
|---|---|---|
| `Errors.DingError.Message` | ding-rs/src/errors.rs:4-16 | both kinds are transparent: the message shown is the wrapped error's own message |
| `Errors.ConversionsKeepSource` | ding-rs/src/errors.rs:6-15 | the `From` conversions wrap the source error unchanged and one-to-one, and a URL error never equals a request error |
| `Http.ErrorForStatus` | ding-rs/src/client.rs:162 | a response fails exactly when its status is 4xx/5xx; the error carries that status and any other response passes through unchanged |
| `Http.PresentKeepsGivenPairs` | ding-rs/src/types.rs:26-41 | a key/value pair survives exactly when its value was `Some`; a `None` value is never emitted |
| `Http.HttpRequest.JsonBody` | ding-rs/src/client.rs:55 | attaching a JSON body sets the body and adds `Content-Type: application/json` unless a `Content-Type` header is already there; method, URL, query and the existing headers are kept |
| `Http.MemberOfPresent` | ding-rs/src/client.rs:147-151 | with distinct keys, reading a key back after absent values are dropped gives the value given for it, or nothing when it was absent |
| `Types.TagsRequest.WithLimit` | ding-rs/src/types.rs:138-143 | sets `limit` and leaves `offset` as it was |
| `Types.TagsRequest.WithOffset` | ding-rs/src/types.rs:145-150 | sets `offset` and leaves `limit` as it was |
| `Types.BookmarksRequest.WithLimit` | ding-rs/src/types.rs:154-160 | sets `limit` and keeps `query` and `offset` |
| `Types.BookmarksRequest.WithOffset` | ding-rs/src/types.rs:162-168 | sets `offset` and keeps `query` and `limit` |
| `Types.TagsSettersOverrideAndCommute` | ding-rs/src/types.rs:137-151 | a second call of the same setter overrides the first, and the `limit` and `offset` setters commute |
| `Types.BookmarksSettersOverrideAndCommute` | ding-rs/src/types.rs:153-169 | the same for the bookmark bundle, whose query is kept throughout |
| `Types.BookmarkRequest.New` | ding-rs/src/types.rs:44-50 | the new payload has the given URL |
| `Types.NewSendsOnlyUrl` | ding-rs/src/types.rs:44-50 | `BookmarkRequest::new(u)` serializes to exactly one member, `url` |
| `Types.WireField` | ding-rs/src/types.rs:24-42 | under the JSON name of each field, the payload holds that field's value when it is set and nothing when it is unset |
| `Types.WireOnlyFields` | ding-rs/src/types.rs:24-42 | nothing is emitted under a name that is not one of the eight field names |
| `Types.WireHasExactlySetFields` | ding-rs/src/types.rs:24-42 | the payload has a member for each set field, none for an unset field, and none under any other name |
| `Types.WireRoundTrip` | ding-rs/src/types.rs:24-42 | reading the payload back gives the request itself, so an unset field and a field set to empty or false are told apart |
| `Types.EmptyUrl` | ding-rs/src/types.rs:119-130 | a non-string field, or a string written with an escape sequence (which a borrowed `&str` cannot hold), is a type error; `""` decodes to no URL; any other string decodes to the parsed URL or to the parse error as a custom decode error |
| `Types.EmptyUrlOutcomes` | ding-rs/src/types.rs:123-129 | the result is "no URL" exactly for an unescaped empty string, and a URL exactly when the text is unescaped, non-empty and parses to it |
| `Types.EscapedSnapshotUrlRejected` | ding-rs/src/types.rs:123 | a snapshot URL sent with escaped slashes, as JSON encoders commonly write it, fails to decode as written, and decodes to the URL once the string is owned |
| `Types.EmptyUrlOwned` | ding-rs/src/types.rs:119-130 | the corrected step, reading an owned `String`: a non-string field is a type error, `""` is no URL, and any other text is the parsed URL or the parse error, however the JSON wrote it |
| `Types.EmptyUrlOwnedOutcomes` | ding-rs/src/types.rs:119-130 | the corrected step agrees with the borrowed one on every unescaped field; "no URL" exactly for `""`, a URL exactly for non-empty text that parses to it |
| `Types.TagRequest.ToJson` | ding-rs/src/types.rs:6-9 | a tag payload serializes to an object with exactly one member, `name`, holding the given name |
| `Types.Envelope.Next` | ding-rs/src/types.rs:176-189 | the next link comes back unchanged: present exactly when the page has one, with the same URL |
| `Types.Envelope.Results` | ding-rs/src/types.rs:181-193 | the page's records come back unchanged: same number, same records, same order |
| `Pagination.ClearedBundles` | ding-rs/src/client.rs:195 | for both bundle kinds the paging accessors are the setters of the `IterableRequest` impls, and clearing limit and offset leaves only the bookmark query |
| `Pagination.LoadAll` | ding-rs/src/client.rs:187-210 | the result is what the transcript of page calls collects: the first error, or every page's records in order |
| `Pagination.TranscriptAt` | ding-rs/src/client.rs:196-207 | the k-th call sends the base bundle at the loop's offset, and that offset is the start plus the records all earlier pages returned |
| `Pagination.TranscriptRequests` | ding-rs/src/client.rs:196-207 | the same, for every call of the transcript at once |
| `Pagination.BookmarksPagesKeepQuery` | ding-rs/src/client.rs:195-207 | every bookmark page call keeps the caller's query and has `limit = None`; its offset is the count of records received so far, and the first is at offset 0 |
| `Pagination.TagsPagesClearLimit` | ding-rs/src/client.rs:195-207 | every tag page call has `limit = None` at the offset of the records received so far; the first is `(None, Some(0))` whatever the caller gave |
| `Pagination.TranscriptStops` | ding-rs/src/client.rs:198-204 | every call before the last returned a page with a next link; the last failed or had none, so a first page without one means exactly one call |
| `Pagination.CollectedOutcome` | ding-rs/src/client.rs:198-209 | a failed call is the last one, and the fetch returns its error with no partial records; otherwise it returns every page's records in order |
| `Pagination.CollectedLast` | ding-rs/src/client.rs:200-204 | a page without a next link ends the fetch with its own records |
| `Pagination.CollectedStep` | ding-rs/src/client.rs:200-207 | past a page with a next link, the outcome is that page's records in front of the outcome from the offset advanced by their number |
| `Pagination.ServerMakesProgress` | ding-rs/src/client.rs:202-207 | against the model server, every page with a next link is non-empty, so the loop advances |
| `Pagination.ServedRecords` | ding-rs/src/client.rs:196-209 | fetching from an offset against the model server returns the rest of the collection in order |
| `Pagination.ServedCalls` | ding-rs/src/client.rs:196-207 | the k-th call is at offset + k·M, and the number of calls covers the remaining records at M per page |
| `Pagination.LoadAllFetchesWholeCollection` | ding-rs/src/client.rs:187-210 | for N records served M per page, the fetch returns exactly the collection in order after ceil(N/M) calls (one when N = 0), the k-th at offset k·M |
| `Client.U64Text` | ding-rs/src/client.rs:105 | `to_string` of a `u64` is all digits and reads back as the same number |
| `Client.BookmarkRoutesDistinct` | ding-rs/src/client.rs:42-112 | a bookmark's path names that id and no other; get, archive, unarchive, the collection and the archived list have different paths; so do tags |
| `Client.BookmarksQueryReadBack` | ding-rs/src/client.rs:147-151 | the bookmark-list query carries `q`, `limit` and `offset` exactly when given, with their values |
| `Client.TagsQueryReadBack` | ding-rs/src/client.rs:104-107 | the tag-list query carries `limit` and `offset` exactly when given, with their values |
| `Client.JsonResponseHandler` | ding-rs/src/client.rs:170-172 | a body that decodes gives the decoded value; one that does not is a `Request` error with the decoder's message |
| `Client.EmptyResponseHandler` | ding-rs/src/client.rs:166-168 | the body is discarded and the call succeeds |
| `Client.DingClient.New` | ding-rs/src/client.rs:18-24 | construction cannot fail and records the base URL and token |
| `Client.DingClient.RequestBuilder` | ding-rs/src/client.rs:128-138 | a failed join is a `Url` error and no request exists; otherwise the request is at the joined URL with exactly the header `Authorization: Token <token>`, no query and no body |
| `Client.DingClient.BookmarksRequestBuilder` | ding-rs/src/client.rs:140-152 | the same failure; otherwise a GET at the joined URL with the token header and the `q`/`limit`/`offset` query |
| `Client.DingClient.SendRequest` | ding-rs/src/client.rs:154-164 | a send failure or a 4xx/5xx status is a `Request` error, the same whatever the success handler would do; only a passing response reaches the handler |
| `Client.DingClient.SendJson` | ding-rs/src/client.rs:174-180 | the answer is a `Request` error on send failure, error status or undecodable body, and the decoded body otherwise |
| `Client.DingClient.SendWithoutOutput` | ding-rs/src/client.rs:182-185 | the answer is a `Request` error on send failure or error status, and success otherwise |
| `Client.DingClient.Bookmarks` | ding-rs/src/client.rs:31-34 | a GET of `api/bookmarks/` with the list query, answered through the status gate and the page decoder |
| `Client.DingClient.Archived` | ding-rs/src/client.rs:41-44 | a GET of `api/bookmarks/archived/` with the list query |
| `Client.DingClient.Bookmark` | ding-rs/src/client.rs:46-49 | a GET of `api/bookmarks/{id}/` with no query or body |
| `Client.DingClient.CreateBookmark` | ding-rs/src/client.rs:51-57 | requires the URL to be set; a POST of `api/bookmarks/` whose body is the payload's JSON, sent with `Content-Type: application/json` after the token header |
| `Client.DingClient.ResetBookmark` | ding-rs/src/client.rs:59-65 | requires the URL to be set; a PUT of `api/bookmarks/{id}/` with the payload and the JSON content type |
| `Client.DingClient.UpdateBookmark` | ding-rs/src/client.rs:67-72 | no URL requirement; a PATCH of `api/bookmarks/{id}/` with the payload and the JSON content type |
| `Client.DingClient.ArchiveBookmark` | ding-rs/src/client.rs:74-80 | a POST of `api/bookmarks/{id}/archive/`; success is the status alone |
| `Client.DingClient.UnarchiveBookmark` | ding-rs/src/client.rs:82-88 | a POST of `api/bookmarks/{id}/unarchive/`; success is the status alone |
| `Client.DingClient.DeleteBookmark` | ding-rs/src/client.rs:90-94 | a DELETE of `api/bookmarks/{id}/`; success is the status alone |
| `Client.DingClient.Tags` | ding-rs/src/client.rs:101-109 | a GET of `api/tags` with the `limit`/`offset` query |
| `Client.DingClient.Tag` | ding-rs/src/client.rs:111-114 | a GET of `api/tags/{id}/` |
| `Client.DingClient.CreateTag` | ding-rs/src/client.rs:116-121 | a POST of `api/tags/` whose body is `{"name": …}`, with the JSON content type |
| `Client.DingClient.UserProfile` | ding-rs/src/client.rs:123-126 | a GET of `api/user/profile/` |
| `Client.JsonBodyAfterToken` | ding-rs/src/client.rs:55 | on a request carrying only the token header, `.json(..)` leaves exactly the token header followed by the JSON content type |
| `Client.DingClient.BookmarksCall` | ding-rs/src/client.rs:27 | the page call handed to the loop is, for every bundle, the `bookmarks` exchange with that bundle's query |
| `Client.DingClient.ArchivedCall` | ding-rs/src/client.rs:37 | the same over `api/bookmarks/archived/` |
| `Client.DingClient.TagsCall` | ding-rs/src/client.rs:97 | the same over `api/tags` with the tag query |
| `Client.DingClient.AllBookmarks` | ding-rs/src/client.rs:26-29 | the fetch-all loop over `bookmarks`, with the outcome the transcript of its page calls collects |
| `Client.DingClient.AllArchived` | ding-rs/src/client.rs:36-39 | the fetch-all loop over `archived` |
| `Client.DingClient.AllTags` | ding-rs/src/client.rs:96-99 | the fetch-all loop over `tags` |
| `Client.TokenOnEveryRequest` | ding-rs/src/client.rs:133-151 | every built request carries the client's token header; the list builder differs from the plain builder only by its query |

Each operation's contract is stated through `DingClient.Exchange`. This is a
flat account of one call: a failed join is a `Url` error and nothing is
sent. Otherwise the request at the joined URL, carrying the token header and
the given query and body (and `Content-Type: application/json` when there is a
body), is answered as `DingClient.Answer` says. The
functions themselves compose the layered builders and senders of the code,
so the contract and the body are two separate definitions.

## Left out

- Pagination.LoadAll: requires `MakesProgress`. This says that, at every
  `u64` offset, a page that announces a next page holds at least one record,
  and the offset advanced past it still fits a `u64`. The Rust loop has no
  such guard. A server that sends a next link with an empty page makes it
  request the same page forever. An offset past `u64::MAX` would panic in a
  debug build or wrap around in a release build. The model server satisfies
  the precondition (`ServerMakesProgress`).
- Client.DingClient.AllBookmarks, Client.DingClient.AllArchived, Client.DingClient.AllTags: the same precondition, inherited from `LoadAll`.
- Client.DingClient.CreateBookmark, Client.DingClient.ResetBookmark: the `assert!` that panics on a missing URL is a precondition. The panic is not modelled as a value.
- Http.ReqwestError.Message: the display texts of the stand-in `reqwest::Error` are placeholders. They keep one text per kind (and the status code for a status error), not reqwest's own wording, which names the status with its reason phrase and the URL.
- Header names are compared as written; `reqwest` compares them without regard to case.
- Async execution, futures and `reqwest::Client::new`. Sending is a total function from a request to a response or a transport error, so retries, timeouts and concurrency are not modelled.
- `Url::parse` and `Url::join` are abstract functions; a URL is known only by its text.
- JSON decoding of `Bookmark`, `Tag`, `UserProfile`, `SearchPreferences` and the page envelopes. The serde decoders are parameters. Only the record shapes and the `empty_url` step are modelled.
- `chrono` timestamps are opaque RFC 3339 text.
- The server-side invariants of records and envelopes are not checked. These are: ids never reused, modification not before creation, `results.len() <= count`.
- Records skipped or repeated when the collection changes between page requests are not modelled. The model server's collection is fixed.
- The command-line front end is not part of this model. That covers argument parsing, shell completions, output rendering and the URL-based archive/unarchive/delete branches that are not implemented.

## Findings

| source | as written | input that shows it | evidently intended | confidence | as-written member | corrected member |
|---|---|---|---|---|---|---|
| ding-rs/src/types.rs:123 | `empty_url` deserializes a borrowed `&str`, which serde_json can lend only when the JSON string has no escape sequence; an escaped string is a type error | a bookmark whose `web_archive_snapshot_url` is `"https:\/\/web.archive.org\/x"` | read an owned `String`, so any JSON string holding a URL decodes to it | not executed | `Types.EscapedSnapshotUrlRejected` | `Types.EmptyUrlOwnedOutcomes` |
