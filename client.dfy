/** `DingClient`: the authenticated gateway to the bookmark service. It holds
    a base URL and a token for its whole life and changes nothing, so it is a
    value. Every operation joins an API path onto the base URL, adds the
    `Authorization` header, sends the request, rejects an error status before
    anything reads the body, and decodes the body into the expected record.
    The three things the client borrows from libraries (joining URLs,
    sending a request, decoding JSON) are handed to it as functions. */
module Client {
  import opened Base
  import opened Http
  import opened Errors
  import opened Types
  import opened Pagination

  /** serde's decoders for the bodies the client reads; a failure carries
      the decoder's message. */
  datatype Decoders = Decoders(
    bookmark: string -> Result<Bookmark, string>,
    bookmarks: string -> Result<BookmarksResponse, string>,
    tag: string -> Result<Tag, string>,
    tags: string -> Result<TagsResponse, string>,
    userProfile: string -> Result<UserProfile, string>)

  /** `Url::join`, `RequestBuilder::send` and `Response::json`. */
  datatype Library = Library(
    join: (Url, string) -> Result<Url, ParseError>,
    send: HttpRequest -> Result<Response, ReqwestError>,
    decoders: Decoders)

  /** `u64::to_string`, as `format!` and the query builders write a number. */
  function U64Text(x: uint64): (s: string)
    ensures AllDigits(s) && ParseDecimal(s) == x as nat
  {
    ParseDecimalOfDecimal(x as nat);
    Decimal(x as nat)
  }

  // The API paths, relative to the base URL.

  const BookmarksPath: string := "api/bookmarks/"
  const ArchivedPath: string := "api/bookmarks/archived/"
  const TagsPath: string := "api/tags"
  const TagsCreatePath: string := "api/tags/"
  const UserProfilePath: string := "api/user/profile/"

  /** `api/bookmarks/{id}/`: get, replace, patch and delete one bookmark. */
  function BookmarkPath(id: uint64): string {
    "api/bookmarks/" + U64Text(id) + "/"
  }

  function ArchivePath(id: uint64): string {
    "api/bookmarks/" + U64Text(id) + "/archive/"
  }

  function UnarchivePath(id: uint64): string {
    "api/bookmarks/" + U64Text(id) + "/unarchive/"
  }

  function TagPath(id: uint64): string {
    "api/tags/" + U64Text(id) + "/"
  }

  /** In `p + digits + rest`, with `rest` starting with a slash, every
      character after `p` is a digit up to that first slash. */
  lemma DigitsUpToSlash(p: string, d: string, s: string)
    requires AllDigits(d) && |s| > 0 && s[0] == '/'
    ensures forall i :: |p| <= i < |p| + |d| ==> IsDigit((p + d + s)[i])
    ensures (p + d + s)[|p| + |d|] == '/'
  {
  }

  /** Splits `p + digits + rest` where `rest` starts with a slash: the digits
      and the rest are determined by the string. */
  lemma DigitsThenSlash(p: string, d1: string, s1: string, d2: string, s2: string)
    requires AllDigits(d1) && AllDigits(d2)
    requires |s1| > 0 && s1[0] == '/' && |s2| > 0 && s2[0] == '/'
    requires p + d1 + s1 == p + d2 + s2
    ensures d1 == d2 && s1 == s2
  {
    var x := p + d1 + s1;
    DigitsUpToSlash(p, d1, s1);
    DigitsUpToSlash(p, d2, s2);
    if |d1| != |d2| {
      assert false;
    }
    assert d1 == x[|p|..|p| + |d1|] && d2 == x[|p|..|p| + |d2|];
    assert s1 == x[|p| + |d1|..] && s2 == x[|p| + |d2|..];
  }

  /** The path of a bookmark names that bookmark and no other, and the
      collection, the archived list and the archive and unarchive actions
      all have paths of their own. */
  lemma BookmarkRoutesDistinct(a: uint64, b: uint64)
    ensures BookmarkPath(a) == BookmarkPath(b) <==> a == b
    ensures ArchivePath(a) == ArchivePath(b) <==> a == b
    ensures UnarchivePath(a) == UnarchivePath(b) <==> a == b
    ensures ArchivePath(a) != UnarchivePath(b)
    ensures BookmarkPath(a) != ArchivePath(b) && BookmarkPath(a) != UnarchivePath(b)
    ensures BookmarkPath(a) != BookmarksPath && BookmarkPath(a) != ArchivedPath
    ensures TagPath(a) == TagPath(b) <==> a == b
  {
    var p := "api/bookmarks/";
    var da, db := U64Text(a), U64Text(b);
    if BookmarkPath(a) == BookmarkPath(b) {
      DigitsThenSlash(p, da, "/", db, "/");
    }
    if ArchivePath(a) == ArchivePath(b) {
      DigitsThenSlash(p, da, "/archive/", db, "/archive/");
    }
    if UnarchivePath(a) == UnarchivePath(b) {
      DigitsThenSlash(p, da, "/unarchive/", db, "/unarchive/");
    }
    if ArchivePath(a) == UnarchivePath(b) {
      DigitsThenSlash(p, da, "/archive/", db, "/unarchive/");
    }
    if BookmarkPath(a) == ArchivePath(b) {
      DigitsThenSlash(p, da, "/", db, "/archive/");
    }
    if BookmarkPath(a) == UnarchivePath(b) {
      DigitsThenSlash(p, da, "/", db, "/unarchive/");
    }
    assert BookmarkPath(a)[14] == da[0] && IsDigit(da[0]);
    assert BookmarksPath[13] == '/' && |BookmarksPath| == 14;
    assert ArchivedPath[14] == 'a';
    if TagPath(a) == TagPath(b) {
      DigitsThenSlash("api/tags/", da, "/", db, "/");
    }
    DecimalInjective(a as nat, b as nat);
  }

  /** The query of the bookmark lists (`q`, `limit`, `offset`), each pair
      carrying `None` when its parameter is absent. */
  function BookmarksQuery(params: BookmarksRequest): seq<(string, Option<string>)> {
    [("q", params.query), ("limit", params.limit.Map(U64Text)), ("offset", params.offset.Map(U64Text))]
  }

  /** The query of the tag list (`limit`, `offset`). */
  function TagsQuery(params: TagsRequest): seq<(string, Option<string>)> {
    [("limit", params.limit.Map(U64Text)), ("offset", params.offset.Map(U64Text))]
  }

  /** Reading the sent query back (absent pairs dropped, as the transport
      does) gives each parameter that was given, and nothing for one that
      was not. */
  lemma BookmarksQueryReadBack(params: BookmarksRequest)
    ensures var q := Present(BookmarksQuery(params));
            && Member(q, "q") == params.query
            && Member(q, "limit").Some? == params.limit.Some?
            && Member(q, "offset").Some? == params.offset.Some?
            && (params.limit.Some? ==> Member(q, "limit") == Some(U64Text(params.limit.value)))
            && (params.offset.Some? ==> Member(q, "offset") == Some(U64Text(params.offset.value)))
  {
    var pairs := BookmarksQuery(params);
    assert DistinctKeys(pairs);
    assert Member(pairs, "q") == Some(params.query);
    assert Member(pairs, "limit") == Member(pairs[1..], "limit") == Some(params.limit.Map(U64Text));
    assert Member(pairs, "offset") == Member(pairs[1..], "offset") == Member(pairs[2..], "offset");
    MemberOfPresent(pairs, "q");
    MemberOfPresent(pairs, "limit");
    MemberOfPresent(pairs, "offset");
  }

  lemma TagsQueryReadBack(params: TagsRequest)
    ensures var q := Present(TagsQuery(params));
            && Member(q, "limit").Some? == params.limit.Some?
            && Member(q, "offset").Some? == params.offset.Some?
            && (params.limit.Some? ==> Member(q, "limit") == Some(U64Text(params.limit.value)))
            && (params.offset.Some? ==> Member(q, "offset") == Some(U64Text(params.offset.value)))
  {
  }

  /** A request that so far carries only the token header gains the JSON
      content type with its body. */
  lemma JsonBodyAfterToken(req: HttpRequest, value: Json)
    requires |req.headers| == 1 && req.headers[0].0 == "Authorization"
    ensures req.JsonBody(value) ==
            req.(headers := [req.headers[0], ("Content-Type", "application/json")], body := Some(value))
  {
    assert !HasHeader(req.headers, "Content-Type");
    assert req.headers + [("Content-Type", "application/json")] == [req.headers[0], ("Content-Type", "application/json")];
  }

  /** `_json_response_handler`: decode the body; a body that does not decode
      is a `Request` error. */
  function JsonResponseHandler<O>(decode: string -> Result<O, string>, resp: Response): (r: Result<O, DingError>)
    ensures decode(resp.body).Ok? ==> r == Ok(decode(resp.body).value)
    ensures decode(resp.body).Err? ==> r == Err(Request(Decode(decode(resp.body).error)))
  {
    match decode(resp.body)
    case Ok(v) => Ok(v)
    case Err(m) => Err(Request(Decode(m)))
  }

  /** `_empty_response_handler`: the body is discarded. */
  function EmptyResponseHandler(resp: Response): (r: Result<(), DingError>)
    ensures r.Ok?
  {
    Ok(())
  }

  datatype DingClient = DingClient(lib: Library, baseUrl: Url, apiToken: string) {

    /** `DingClient::new`: construction only records its arguments; it cannot
        fail and sends nothing. */
    static function New(lib: Library, baseUrl: Url, apiToken: string): (c: DingClient)
      ensures c.baseUrl == baseUrl && c.apiToken == apiToken && c.lib == lib
    {
      DingClient(lib, baseUrl, apiToken)
    }

    /** The header every request carries. */
    function Authorization(): (string, string) {
      ("Authorization", "Token " + apiToken)
    }

    /** The headers a request is sent with: the token, then the content
        type that a JSON body brings with it. */
    function RequestHeaders(body: Option<Json>): seq<(string, string)> {
      if body.Some? then [Authorization(), ("Content-Type", "application/json")] else [Authorization()]
    }

    /** `_request_builder`: the base URL joined with the path, and the token
        header; a failed join is a `Url` error and no request exists. */
    function RequestBuilder(verb: Method, apiPath: string): (r: Result<HttpRequest, DingError>)
      ensures lib.join(baseUrl, apiPath).Err? <==> r.Err?
      ensures r.Err? ==> r.error == DingError.Url(lib.join(baseUrl, apiPath).error)
      ensures r.Ok? ==> && r.value.verb == verb
                        && r.value.url == lib.join(baseUrl, apiPath).value
                        && r.value.headers == [("Authorization", "Token " + apiToken)]
                        && r.value.query == [] && r.value.body == None
    {
      var url :- match lib.join(baseUrl, apiPath) case Ok(u) => Ok(u) case Err(e) => Err(DingError.Url(e));
      Ok(HttpRequest(verb, url, [], [], None).Header("Authorization", "Token " + apiToken))
    }

    /** `_bookmarks_request_builder`: a GET with the search and paging
        parameters as query pairs. */
    function BookmarksRequestBuilder(apiPath: string, params: BookmarksRequest): (r: Result<HttpRequest, DingError>)
      ensures lib.join(baseUrl, apiPath).Err? <==> r.Err?
      ensures r.Err? ==> r.error == DingError.Url(lib.join(baseUrl, apiPath).error)
      ensures r.Ok? ==> && r.value.verb == GET
                        && r.value.url == lib.join(baseUrl, apiPath).value
                        && r.value.headers == [Authorization()]
                        && r.value.query == BookmarksQuery(params) && r.value.body == None
    {
      var req :- RequestBuilder(GET, apiPath);
      Ok(req.Query(BookmarksQuery(params)))
    }

    /** `_send_request`: send, turn a 4xx/5xx status into an error, and only
        then hand the response to `success`. A failed send or an error status
        gives the same error whatever `success` would have done. */
    function SendRequest<O>(req: HttpRequest, success: Response -> Result<O, DingError>): (r: Result<O, DingError>)
      ensures lib.send(req).Err? ==> r == Err(Request(lib.send(req).error))
      ensures lib.send(req).Ok? && IsErrorStatus(lib.send(req).value.status) ==>
                r == Err(Request(Status(lib.send(req).value.status)))
      ensures lib.send(req).Ok? && !IsErrorStatus(lib.send(req).value.status) ==>
                r == success(lib.send(req).value)
    {
      var sent :- match lib.send(req) case Ok(resp) => Ok(resp) case Err(e) => Err(Request(e));
      var resp :- match ErrorForStatus(sent) case Ok(resp) => Ok(resp) case Err(e) => Err(Request(e));
      success(resp)
    }

    /** `_send_request_with_json_output` */
    function SendJson<O(==)>(req: HttpRequest, decode: string -> Result<O, string>): (r: Result<O, DingError>)
      ensures Answer(r, req, decode)
    {
      SendRequest(req, (resp: Response) => JsonResponseHandler(decode, resp))
    }

    /** `_send_request_without_output` */
    function SendWithoutOutput(req: HttpRequest): (r: Result<(), DingError>)
      ensures Answer(r, req, (body: string) => Ok(()))
    {
      SendRequest(req, EmptyResponseHandler)
    }

    /** What one exchange yields, stated flat: a send failure is a `Request`
        error; a 4xx/5xx status is a `Request` error carrying the status and
        the body is never decoded; otherwise the decoded body, or a `Request`
        error if it does not decode. */
    predicate Answer<O(==)>(r: Result<O, DingError>, req: HttpRequest, decode: string -> Result<O, string>) {
      match lib.send(req)
      case Err(e) => r == Err(Request(e))
      case Ok(resp) =>
        if IsErrorStatus(resp.status) then r == Err(Request(Status(resp.status)))
        else match decode(resp.body)
          case Ok(v) => r == Ok(v)
          case Err(m) => r == Err(Request(Decode(m)))
    }

    /** What an operation yields: a path that does not join onto the base URL
        is a `Url` error and nothing is sent; otherwise the request at the
        joined URL with the token header (and, with a JSON body, the
        `Content-Type: application/json` header), the given query and body,
        answered as `Answer` says. */
    predicate Exchange<O(==)>(r: Result<O, DingError>, verb: Method, apiPath: string,
                          query: seq<(string, Option<string>)>, body: Option<Json>,
                          decode: string -> Result<O, string>) {
      match lib.join(baseUrl, apiPath)
      case Err(e) => r == Err(DingError.Url(e))
      case Ok(u) => Answer(r, HttpRequest(verb, u, RequestHeaders(body), query, body), decode)
    }

    /** `bookmarks`: one page of the bookmark list. */
    function Bookmarks(params: BookmarksRequest): (r: Result<BookmarksResponse, DingError>)
      ensures Exchange(r, GET, BookmarksPath, BookmarksQuery(params), None, lib.decoders.bookmarks)
    {
      var req :- BookmarksRequestBuilder(BookmarksPath, params);
      SendJson(req, lib.decoders.bookmarks)
    }

    /** `archived`: one page of the archived bookmarks. */
    function Archived(params: BookmarksRequest): (r: Result<BookmarksResponse, DingError>)
      ensures Exchange(r, GET, ArchivedPath, BookmarksQuery(params), None, lib.decoders.bookmarks)
    {
      var req :- BookmarksRequestBuilder(ArchivedPath, params);
      SendJson(req, lib.decoders.bookmarks)
    }

    /** `bookmark`: one bookmark by id. */
    function Bookmark(id: uint64): (r: Result<Types.Bookmark, DingError>)
      ensures Exchange(r, GET, BookmarkPath(id), [], None, lib.decoders.bookmark)
    {
      var req :- RequestBuilder(GET, BookmarkPath(id));
      SendJson(req, lib.decoders.bookmark)
    }

    /** `create_bookmark`: the caller must supply the URL; the payload holds
        the fields that are set. */
    function CreateBookmark(params: BookmarkRequest): (r: Result<Types.Bookmark, DingError>)
      requires params.url.Some?
      ensures Exchange(r, POST, BookmarksPath, [], Some(params.ToJson()), lib.decoders.bookmark)
    {
      var req :- RequestBuilder(POST, BookmarksPath);
      JsonBodyAfterToken(req, params.ToJson());
      SendJson(req.JsonBody(params.ToJson()), lib.decoders.bookmark)
    }

    /** `reset_bookmark`: full replacement, so the URL is required too. */
    function ResetBookmark(id: uint64, params: BookmarkRequest): (r: Result<Types.Bookmark, DingError>)
      requires params.url.Some?
      ensures Exchange(r, PUT, BookmarkPath(id), [], Some(params.ToJson()), lib.decoders.bookmark)
    {
      var req :- RequestBuilder(PUT, BookmarkPath(id));
      JsonBodyAfterToken(req, params.ToJson());
      SendJson(req.JsonBody(params.ToJson()), lib.decoders.bookmark)
    }

    /** `update_bookmark`: a patch; any subset of fields, the URL included,
        may be left out. */
    function UpdateBookmark(id: uint64, params: BookmarkRequest): (r: Result<Types.Bookmark, DingError>)
      ensures Exchange(r, PATCH, BookmarkPath(id), [], Some(params.ToJson()), lib.decoders.bookmark)
    {
      var req :- RequestBuilder(PATCH, BookmarkPath(id));
      JsonBodyAfterToken(req, params.ToJson());
      SendJson(req.JsonBody(params.ToJson()), lib.decoders.bookmark)
    }

    /** `archive_bookmark`: success is the status alone. */
    function ArchiveBookmark(id: uint64): (r: Result<(), DingError>)
      ensures Exchange(r, POST, ArchivePath(id), [], None, (body: string) => Ok(()))
    {
      var req :- RequestBuilder(POST, ArchivePath(id));
      SendWithoutOutput(req)
    }

    /** `unarchive_bookmark` */
    function UnarchiveBookmark(id: uint64): (r: Result<(), DingError>)
      ensures Exchange(r, POST, UnarchivePath(id), [], None, (body: string) => Ok(()))
    {
      var req :- RequestBuilder(POST, UnarchivePath(id));
      SendWithoutOutput(req)
    }

    /** `delete_bookmark` */
    function DeleteBookmark(id: uint64): (r: Result<(), DingError>)
      ensures Exchange(r, DELETE, BookmarkPath(id), [], None, (body: string) => Ok(()))
    {
      var req :- RequestBuilder(DELETE, BookmarkPath(id));
      SendWithoutOutput(req)
    }

    /** `tags`: one page of the tag list. */
    function Tags(params: TagsRequest): (r: Result<TagsResponse, DingError>)
      ensures Exchange(r, GET, TagsPath, TagsQuery(params), None, lib.decoders.tags)
    {
      var req :- RequestBuilder(GET, TagsPath);
      assert [] + TagsQuery(params) == TagsQuery(params);
      SendJson(req.Query(TagsQuery(params)), lib.decoders.tags)
    }

    /** `tag`: one tag by id. */
    function Tag(id: uint64): (r: Result<Types.Tag, DingError>)
      ensures Exchange(r, GET, TagPath(id), [], None, lib.decoders.tag)
    {
      var req :- RequestBuilder(GET, TagPath(id));
      SendJson(req, lib.decoders.tag)
    }

    /** `create_tag` */
    function CreateTag(params: TagRequest): (r: Result<Types.Tag, DingError>)
      ensures Exchange(r, POST, TagsCreatePath, [], Some(params.ToJson()), lib.decoders.tag)
    {
      var req :- RequestBuilder(POST, TagsCreatePath);
      JsonBodyAfterToken(req, params.ToJson());
      SendJson(req.JsonBody(params.ToJson()), lib.decoders.tag)
    }

    /** `user_profile` */
    function UserProfile(): (r: Result<Types.UserProfile, DingError>)
      ensures Exchange(r, GET, UserProfilePath, [], None, lib.decoders.userProfile)
    {
      var req :- RequestBuilder(GET, UserProfilePath);
      SendJson(req, lib.decoders.userProfile)
    }

    /** The page calls the fetch-all operations hand to `_load_all`. */
    function BookmarksCall(): (c: PageCall<BookmarksRequest, Types.Bookmark>)
      ensures forall p :: Exchange(c(p), GET, BookmarksPath, BookmarksQuery(p), None, lib.decoders.bookmarks)
    {
      (p: BookmarksRequest) => Bookmarks(p)
    }

    function ArchivedCall(): (c: PageCall<BookmarksRequest, Types.Bookmark>)
      ensures forall p :: Exchange(c(p), GET, ArchivedPath, BookmarksQuery(p), None, lib.decoders.bookmarks)
    {
      (p: BookmarksRequest) => Archived(p)
    }

    function TagsCall(): (c: PageCall<TagsRequest, Types.Tag>)
      ensures forall p :: Exchange(c(p), GET, TagsPath, TagsQuery(p), None, lib.decoders.tags)
    {
      (p: TagsRequest) => Tags(p)
    }

    /** `all_bookmarks`: every bookmark, page by page. */
    method AllBookmarks(params: BookmarksRequest) returns (r: Result<seq<Types.Bookmark>, DingError>)
      requires MakesProgress(BookmarksCall(), BookmarksPaging, Cleared(BookmarksPaging, params))
      ensures r == Collected(Transcript(BookmarksCall(), BookmarksPaging, Cleared(BookmarksPaging, params), 0))
    {
      r := LoadAll(params, BookmarksPaging, BookmarksCall());
    }

    /** `all_archived` */
    method AllArchived(params: BookmarksRequest) returns (r: Result<seq<Types.Bookmark>, DingError>)
      requires MakesProgress(ArchivedCall(), BookmarksPaging, Cleared(BookmarksPaging, params))
      ensures r == Collected(Transcript(ArchivedCall(), BookmarksPaging, Cleared(BookmarksPaging, params), 0))
    {
      r := LoadAll(params, BookmarksPaging, ArchivedCall());
    }

    /** `all_tags` */
    method AllTags(params: TagsRequest) returns (r: Result<seq<Types.Tag>, DingError>)
      requires MakesProgress(TagsCall(), TagsPaging, Cleared(TagsPaging, params))
      ensures r == Collected(Transcript(TagsCall(), TagsPaging, Cleared(TagsPaging, params), 0))
    {
      r := LoadAll(params, TagsPaging, TagsCall());
    }
  }

  /** Every operation's request carries the client's token, whatever the
      parameters: the request a page call sends differs only in its query. */
  lemma TokenOnEveryRequest(c: DingClient, verb: Method, path: string, params: BookmarksRequest)
    ensures c.RequestBuilder(verb, path).Ok? ==>
              c.RequestBuilder(verb, path).value.headers == [("Authorization", "Token " + c.apiToken)]
    ensures c.BookmarksRequestBuilder(path, params).Ok? ==>
              c.BookmarksRequestBuilder(path, params).value ==
              c.RequestBuilder(GET, path).value.(query := BookmarksQuery(params))
  {
  }
}
