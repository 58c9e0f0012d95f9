/** The client's data model: request parameter bundles, the create/update
    payloads and their JSON form, the records the server returns, the page
    envelope, and the custom decode step for the archive-snapshot URL. */
module Types {
  import opened Base
  import opened Http

  /** A `chrono::DateTime<Utc>`, kept as the RFC 3339 text it travels as. */
  datatype Timestamp = Timestamp(rfc3339: string)

  datatype TagRequest = TagRequest(name: string) {

    /** Its serialized form: an object whose one member, `name`, holds the
        tag's name. */
    function ToJson(): (j: Json)
      ensures j.Object? && |j.members| == 1 && Member(j.members, "name") == Some(Str(name))
    {
      Object([("name", Str(name))])
    }
  }

  /** Paging parameters of the tag list (`TagsRequest`). */
  datatype TagsRequest = TagsRequest(limit: Option<uint64>, offset: Option<uint64>) {

    /** `IterableRequest::limit`: a copy with `limit` replaced. */
    function WithLimit(newLimit: Option<uint64>): (r: TagsRequest)
      ensures r.limit == newLimit && r.offset == offset
    {
      TagsRequest(newLimit, offset)
    }

    /** `IterableRequest::offset`: a copy with `offset` replaced. */
    function WithOffset(newOffset: Option<uint64>): (r: TagsRequest)
      ensures r.offset == newOffset && r.limit == limit
    {
      TagsRequest(limit, newOffset)
    }
  }

  /** Search and paging parameters of the bookmark lists (`BookmarksRequest`). */
  datatype BookmarksRequest = BookmarksRequest(query: Option<string>, limit: Option<uint64>, offset: Option<uint64>) {

    /** `IterableRequest::limit`: a copy with `limit` replaced. */
    function WithLimit(newLimit: Option<uint64>): (r: BookmarksRequest)
      ensures r.limit == newLimit && r.offset == offset && r.query == query
    {
      BookmarksRequest(query, newLimit, offset)
    }

    /** `IterableRequest::offset`: a copy with `offset` replaced. */
    function WithOffset(newOffset: Option<uint64>): (r: BookmarksRequest)
      ensures r.offset == newOffset && r.limit == limit && r.query == query
    {
      BookmarksRequest(query, limit, newOffset)
    }
  }

  /** Because each setter copies every other field, a second call of the same
      setter overrides the first, and the two setters commute. */
  lemma TagsSettersOverrideAndCommute(r: TagsRequest, a: Option<uint64>, b: Option<uint64>)
    ensures r.WithLimit(a).WithLimit(b) == r.WithLimit(b)
    ensures r.WithOffset(a).WithOffset(b) == r.WithOffset(b)
    ensures r.WithLimit(a).WithOffset(b) == r.WithOffset(b).WithLimit(a)
  {
  }

  lemma BookmarksSettersOverrideAndCommute(r: BookmarksRequest, a: Option<uint64>, b: Option<uint64>)
    ensures r.WithLimit(a).WithLimit(b) == r.WithLimit(b)
    ensures r.WithOffset(a).WithOffset(b) == r.WithOffset(b)
    ensures r.WithLimit(a).WithOffset(b) == r.WithOffset(b).WithLimit(a)
  {
  }

  /** The create/replace/patch payload; every field optional. */
  datatype BookmarkRequest = BookmarkRequest(
    url: Option<Url>,
    title: Option<string>,
    description: Option<string>,
    notes: Option<string>,
    isArchived: Option<bool>,
    unread: Option<bool>,
    shared: Option<bool>,
    tagNames: Option<seq<string>>)
  {
    /** `BookmarkRequest::new`: only the URL is set. */
    static function New(u: Url): (r: BookmarkRequest)
      ensures r.url == Some(u)
    {
      BookmarkRequest(Some(u), None, None, None, None, None, None, None)
    }

    /** The struct's fields in declaration order, under their JSON names,
        with `None` for an unset field. */
    function Fields(): seq<(string, Option<Json>)> {
      [ ("url", url.Map(UrlJson)),
        ("title", title.Map(StrJson)),
        ("description", description.Map(StrJson)),
        ("notes", notes.Map(StrJson)),
        ("is_archived", isArchived.Map(BoolJson)),
        ("unread", unread.Map(BoolJson)),
        ("shared", shared.Map(BoolJson)),
        ("tag_names", tagNames.Map(StrsJson)) ]
    }

    /** The members of the serialized object: every field marked
        `skip_serializing_if = "Option::is_none"` is left out when unset. */
    function Wire(): seq<(string, Json)> {
      Present(Fields())
    }

    function ToJson(): Json {
      Object(Wire())
    }

    /** How the receiving side reads a payload object back into fields. */
    static function FromWire(w: seq<(string, Json)>): BookmarkRequest {
      BookmarkRequest(
        AsUrl(Member(w, "url")),
        AsString(Member(w, "title")),
        AsString(Member(w, "description")),
        AsString(Member(w, "notes")),
        AsBool(Member(w, "is_archived")),
        AsBool(Member(w, "unread")),
        AsBool(Member(w, "shared")),
        AsStrings(Member(w, "tag_names")))
    }
  }

  /** The JSON names of `BookmarkRequest`'s fields. */
  const FieldNames: seq<string> := ["url", "title", "description", "notes", "is_archived", "unread", "shared", "tag_names"]

  /** `BookmarkRequest::new(u)` serializes to the single member `url`. */
  lemma NewSendsOnlyUrl(u: Url)
    ensures BookmarkRequest.New(u).Wire() == [("url", Str(u.serialization))]
  {
    var f := BookmarkRequest.New(u).Fields();
    assert Present(f[7..]) == Present(f[8..]);
    assert Present(f[6..]) == Present(f[7..]);
    assert Present(f[5..]) == Present(f[6..]);
    assert Present(f[4..]) == Present(f[5..]);
    assert Present(f[3..]) == Present(f[4..]);
    assert Present(f[2..]) == Present(f[3..]);
    assert Present(f[1..]) == Present(f[2..]);
    assert f[8..] == [];
    assert f == [f[0]] + f[1..];
  }

  function UrlJson(u: Url): Json {
    Str(u.serialization)
  }

  function StrJson(s: string): Json {
    Str(s)
  }

  function BoolJson(b: bool): Json {
    Bool(b)
  }

  function StrsJson(ts: seq<string>): Json {
    Array(StrItems(ts))
  }

  function StrItems(ts: seq<string>): seq<Json> {
    if ts == [] then [] else [Str(ts[0])] + StrItems(ts[1..])
  }

  function AsUrl(j: Option<Json>): Option<Url> {
    match j
    case Some(Str(s)) => Some(Url(s))
    case _ => None
  }

  function AsString(j: Option<Json>): Option<string> {
    match j
    case Some(Str(s)) => Some(s)
    case _ => None
  }

  function AsBool(j: Option<Json>): Option<bool> {
    match j
    case Some(Bool(b)) => Some(b)
    case _ => None
  }

  function AsStrings(j: Option<Json>): Option<seq<string>> {
    match j
    case Some(Array(items)) => StringItems(items)
    case _ => None
  }

  function StringItems(items: seq<Json>): Option<seq<string>> {
    if items == [] then Some([])
    else match (items[0], StringItems(items[1..]))
      case (Str(s), Some(rest)) => Some([s] + rest)
      case _ => None
  }

  lemma {:induction false} StringItemsOfStrItems(ts: seq<string>)
    ensures StringItems(StrItems(ts)) == Some(ts)
  {
    if ts != [] {
      StringItemsOfStrItems(ts[1..]);
      var items := StrItems(ts);
      assert items == [Str(ts[0])] + StrItems(ts[1..]);
      assert items[0] == Str(ts[0]) && items[1..] == StrItems(ts[1..]);
      assert ts == [ts[0]] + ts[1..];
    }
  }

  lemma FieldKeysDistinct(r: BookmarkRequest)
    ensures DistinctKeys(r.Fields())
    ensures forall i :: 0 <= i < |FieldNames| ==> r.Fields()[i].0 == FieldNames[i]
  {
  }

  /** The serialized payload holds, under the JSON name of each field, that
      field's value when it is set and nothing when it is unset. */
  lemma WireField(r: BookmarkRequest, i: nat)
    requires i < |FieldNames|
    ensures Member(r.Wire(), FieldNames[i]) == r.Fields()[i].1
  {
    var f := r.Fields();
    FieldKeysDistinct(r);
    MemberAt(f, i);
    MemberOfPresent(f, FieldNames[i]);
  }

  /** Nothing is emitted under a name that is not a field's. */
  lemma WireOnlyFields(r: BookmarkRequest, key: string)
    requires key !in FieldNames
    ensures Member(r.Wire(), key) == None
  {
    var f := r.Fields();
    FieldKeysDistinct(r);
    forall i | 0 <= i < |f| ensures f[i].0 != key {
      assert FieldNames[i] in FieldNames;
    }
    MemberMissing(f, key);
    MemberOfPresent(f, key);
  }

  /** The serialized payload has a member exactly for each field that is
      set: a field left unset is never emitted, and nothing else is. */
  lemma WireHasExactlySetFields(r: BookmarkRequest, key: string)
    ensures Member(r.Wire(), "url").Some? <==> r.url.Some?
    ensures Member(r.Wire(), "title").Some? <==> r.title.Some?
    ensures Member(r.Wire(), "description").Some? <==> r.description.Some?
    ensures Member(r.Wire(), "notes").Some? <==> r.notes.Some?
    ensures Member(r.Wire(), "is_archived").Some? <==> r.isArchived.Some?
    ensures Member(r.Wire(), "unread").Some? <==> r.unread.Some?
    ensures Member(r.Wire(), "shared").Some? <==> r.shared.Some?
    ensures Member(r.Wire(), "tag_names").Some? <==> r.tagNames.Some?
    ensures key !in FieldNames ==> Member(r.Wire(), key).None?
  {
    WireField(r, 0);
    WireField(r, 1);
    WireField(r, 2);
    WireField(r, 3);
    WireField(r, 4);
    WireField(r, 5);
    WireField(r, 6);
    WireField(r, 7);
    if key !in FieldNames {
      WireOnlyFields(r, key);
    }
  }

  /** The URL and text fields read back from the payload as they were. */
  lemma WireKeepsText(r: BookmarkRequest)
    ensures AsUrl(Member(r.Wire(), "url")) == r.url
    ensures AsString(Member(r.Wire(), "title")) == r.title
    ensures AsString(Member(r.Wire(), "description")) == r.description
    ensures AsString(Member(r.Wire(), "notes")) == r.notes
  {
    WireField(r, 0);
    WireField(r, 1);
    WireField(r, 2);
    WireField(r, 3);
  }

  /** The flags and the tag names read back from the payload as they were. */
  lemma WireKeepsFlagsAndTags(r: BookmarkRequest)
    ensures AsBool(Member(r.Wire(), "is_archived")) == r.isArchived
    ensures AsBool(Member(r.Wire(), "unread")) == r.unread
    ensures AsBool(Member(r.Wire(), "shared")) == r.shared
    ensures AsStrings(Member(r.Wire(), "tag_names")) == r.tagNames
  {
    WireField(r, 4);
    WireField(r, 5);
    WireField(r, 6);
    WireField(r, 7);
    if r.tagNames.Some? {
      StringItemsOfStrItems(r.tagNames.value);
    }
  }

  /** Nothing is lost on the wire: reading the payload back gives the request,
      so an unset field and a field set to an empty or false value never
      look alike. */
  lemma WireRoundTrip(r: BookmarkRequest)
    ensures BookmarkRequest.FromWire(r.Wire()) == r
  {
    WireKeepsText(r);
    WireKeepsFlagsAndTags(r);
  }

  datatype Tag = Tag(id: uint64, name: string, dateAdded: Timestamp)

  datatype Bookmark = Bookmark(
    id: uint64,
    url: Url,
    title: string,
    description: string,
    notes: string,
    websiteTitle: Option<string>,
    websiteDescription: Option<string>,
    webArchiveSnapshotUrl: Option<Url>,
    faviconUrl: Option<Url>,
    previewImageUrl: Option<Url>,
    isArchived: bool,
    unread: bool,
    shared: bool,
    tagNames: seq<string>,
    dateAdded: Timestamp,
    dateModified: Timestamp)

  datatype SearchPreferences = SearchPreferences(sort: string, shared: string, unread: string)

  datatype UserProfile = UserProfile(
    theme: string,
    bookmarkDateDisplay: string,
    bookmarkLinkTarget: string,
    webArchiveIntegration: string,
    tagSearch: string,
    enableSharing: bool,
    enablePublicSharing: bool,
    enableFavicons: bool,
    displayUrl: bool,
    permanentNotes: bool,
    searchPreferences: SearchPreferences)

  /** One page of a collection (`TagsResponse`, `BookmarksResponse`). */
  datatype Envelope<T> = Envelope(count: uint64, next: Option<Url>, previous: Option<Url>, results: seq<T>) {

    /** `IterableResponse::next`: the page's next link, as received. */
    function Next(): (n: Option<Url>)
      ensures n.Some? <==> next.Some?
      ensures n.Some? ==> n.value == next.value
    {
      next
    }

    /** `IterableResponse::results`: the page's records, all of them and in
        the order received. */
    function Results(): (rs: seq<T>)
      ensures |rs| == |results|
      ensures forall i :: 0 <= i < |rs| ==> rs[i] == results[i]
    {
      results
    }
  }

  type TagsResponse = Envelope<Tag>

  type BookmarksResponse = Envelope<Bookmark>

  /** serde's `D::Error` as the custom decode step meets it. */
  datatype DecodeError =
    | InvalidType(found: Json)  // the field is not a JSON string
    | Custom(message: string)   // `D::Error::custom` of a URL parse error

  /** `empty_url`, the decoder of `web_archive_snapshot_url`. It reads the
      field as a borrowed `&str`, and serde_json can lend one only when the
      string's JSON text holds no escape sequence (`escaped` says whether it
      does); any other field is a type error before anything is parsed. An
      empty string means no URL, any other string must parse. */
  function EmptyUrl(field: Json, escaped: bool, parse: string -> Result<Url, ParseError>): (r: Result<Option<Url>, DecodeError>)
    ensures !field.Str? || escaped ==> r == Err(InvalidType(field))
    ensures field == Str("") && !escaped ==> r == Ok(None)
    ensures field.Str? && !escaped && field.s != "" ==>
              match parse(field.s)
              case Ok(u) => r == Ok(Some(u))
              case Err(e) => r == Err(Custom(e.message))
  {
    match field
    case Str(s) =>
      if escaped then Err(InvalidType(field))
      else if s == [] then Ok(None)
      else (
        match parse(s)
        case Ok(u) => Ok(Some(u))
        case Err(e) => Err(Custom(e.message)))
    case _ => Err(InvalidType(field))
  }

  /** "No URL" comes only from an unescaped empty string, and a URL only from
      a successful parse of the text of a non-empty string written without
      escapes, whatever the parser does. */
  lemma EmptyUrlOutcomes(field: Json, escaped: bool, parse: string -> Result<Url, ParseError>)
    ensures EmptyUrl(field, escaped, parse) == Ok(None) <==> field == Str("") && !escaped
    ensures forall u :: EmptyUrl(field, escaped, parse) == Ok(Some(u)) <==>
                          field.Str? && !escaped && field.s != "" && parse(field.s) == Ok(u)
  {
  }

  /** The decode step as evidently intended: reading the field as an owned
      `String` accepts a string however its JSON text is written, so only
      the string's value decides the outcome. */
  function EmptyUrlOwned(field: Json, parse: string -> Result<Url, ParseError>): (r: Result<Option<Url>, DecodeError>)
    ensures !field.Str? ==> r == Err(InvalidType(field))
    ensures field == Str("") ==> r == Ok(None)
    ensures field.Str? && field.s != "" ==>
              match parse(field.s)
              case Ok(u) => r == Ok(Some(u))
              case Err(e) => r == Err(Custom(e.message))
  {
    match field
    case Str(s) =>
      if s == [] then Ok(None)
      else (
        match parse(s)
        case Ok(u) => Ok(Some(u))
        case Err(e) => Err(Custom(e.message)))
    case _ => Err(InvalidType(field))
  }

  /** The owned reading agrees with `empty_url` on every string written
      without escapes, and yields a URL exactly when a non-empty string
      parses to it. */
  lemma EmptyUrlOwnedOutcomes(field: Json, parse: string -> Result<Url, ParseError>)
    ensures EmptyUrlOwned(field, parse) == EmptyUrl(field, false, parse)
    ensures EmptyUrlOwned(field, parse) == Ok(None) <==> field == Str("")
    ensures forall u :: EmptyUrlOwned(field, parse) == Ok(Some(u)) <==>
                          field.Str? && field.s != "" && parse(field.s) == Ok(u)
  {
  }

  /** A snapshot URL whose JSON text escapes its slashes
      (`"https:\/\/web.archive.org\/x"`) is a valid URL, yet `empty_url`
      rejects it as a type error; the owned reading returns the URL. */
  lemma EscapedSnapshotUrlRejected(parse: string -> Result<Url, ParseError>)
    requires parse("https://web.archive.org/x").Ok?
    ensures EmptyUrl(Str("https://web.archive.org/x"), true, parse) == Err(InvalidType(Str("https://web.archive.org/x")))
    ensures EmptyUrlOwned(Str("https://web.archive.org/x"), parse) == Ok(Some(parse("https://web.archive.org/x").value))
  {
  }
}
