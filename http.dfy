/** Stand-ins for the collaborators the client consumes but does not define:
    `url::Url` and its parse error, JSON values as serde writes them, and the
    parts of `reqwest` the client touches (a request under construction, a
    response, `reqwest::Error`, `Response::error_for_status`). Parsing,
    joining and sending are not defined here; the client receives them as
    functions. */
module Http {
  import opened Base

  /** An absolute URL, known only by its serialization. */
  datatype Url = Url(serialization: string)

  /** `url::ParseError` */
  datatype ParseError = ParseError(message: string)

  datatype Method = GET | POST | PUT | PATCH | DELETE

  /** A JSON value. Objects keep their members in emission order. */
  datatype Json =
    | Null
    | Bool(b: bool)
    | Number(n: int)
    | Str(s: string)
    | Array(items: seq<Json>)
    | Object(members: seq<(string, Json)>)

  /** What a `reqwest::RequestBuilder` has accumulated when it is sent. Query
      pairs are kept as the client hands them over, absent values included. */
  datatype HttpRequest = HttpRequest(
    verb: Method,
    url: Url,
    headers: seq<(string, string)>,
    query: seq<(string, Option<string>)>,
    body: Option<Json>)
  {
    /** `RequestBuilder::header` */
    function Header(name: string, value: string): HttpRequest
    {
      this.(headers := headers + [(name, value)])
    }

    /** `RequestBuilder::query` */
    function Query(pairs: seq<(string, Option<string>)>): HttpRequest
    {
      this.(query := query + pairs)
    }

    /** `RequestBuilder::json`: sets the body, and adds
        `Content-Type: application/json` unless the request already has a
        content type. */
    function JsonBody(value: Json): (r: HttpRequest)
      ensures r.body == Some(value) && r.verb == verb && r.url == url && r.query == query
      ensures HasHeader(headers, "Content-Type") ==> r.headers == headers
      ensures !HasHeader(headers, "Content-Type") ==> r.headers == headers + [("Content-Type", "application/json")]
    {
      var withType := if HasHeader(headers, "Content-Type") then headers else headers + [("Content-Type", "application/json")];
      this.(headers := withType, body := Some(value))
    }
  }

  /** Whether a header of that name has been set. Names are compared as
      written; the client only ever writes them in their canonical spelling. */
  predicate HasHeader(headers: seq<(string, string)>, name: string) {
    exists i :: 0 <= i < |headers| && headers[i].0 == name
  }

  datatype Response = Response(status: nat, body: string)

  /** `reqwest::Error`, by the three ways the client can meet one. */
  datatype ReqwestError =
    | Transport(message: string)  // connection, TLS, timeout
    | Status(code: nat)           // produced by error_for_status
    | Decode(message: string)     // the body is not the expected JSON
  {
    /** The text the error displays. */
    function Message(): string {
      match this
      case Transport(m) => m
      case Status(code) => "HTTP status " + Decimal(code)
      case Decode(m) => m
    }
  }

  /** `StatusCode::is_client_error() || StatusCode::is_server_error()` */
  predicate IsErrorStatus(code: nat) {
    400 <= code <= 599
  }

  /** `Response::error_for_status`: a 4xx or 5xx response becomes an error
      carrying the status; every other response passes through untouched. */
  function ErrorForStatus(resp: Response): (r: Result<Response, ReqwestError>)
    ensures r.Err? <==> IsErrorStatus(resp.status)
    ensures r.Ok? ==> r.value == resp
    ensures r.Err? ==> r.error == Status(resp.status)
  {
    if IsErrorStatus(resp.status) then Err(Status(resp.status)) else Ok(resp)
  }

  /** Drops the pairs whose value is absent and keeps the others in order:
      what the transport does to query pairs, and what serde's
      `skip_serializing_if = "Option::is_none"` does to struct fields. */
  function Present<V>(pairs: seq<(string, Option<V>)>): (q: seq<(string, V)>)
    ensures |q| <= |pairs|
  {
    if pairs == [] then []
    else
      var rest := Present(pairs[1..]);
      assert pairs == [pairs[0]] + pairs[1..];
      match pairs[0].1
      case None => rest
      case Some(v) => [(pairs[0].0, v)] + rest
  }

  /** The first value given for `key`, as the receiving side reads a query
      string or a JSON object. */
  function Member<V>(q: seq<(string, V)>, key: string): (v: Option<V>)
    ensures v.Some? ==> (key, v.value) in q
  {
    if q == [] then None
    else if q[0].0 == key then Some(q[0].1)
    else Member(q[1..], key)
  }

  /** A pair survives exactly when its value was given. */
  lemma {:induction false} PresentKeepsGivenPairs<V(!new)>(pairs: seq<(string, Option<V>)>)
    ensures forall k, v :: (k, v) in Present(pairs) <==> (k, Some(v)) in pairs
  {
    if pairs != [] {
      PresentKeepsGivenPairs(pairs[1..]);
      assert pairs == [pairs[0]] + pairs[1..];
    }
  }

  predicate DistinctKeys<V>(pairs: seq<(string, V)>) {
    forall i, j :: 0 <= i < j < |pairs| ==> pairs[i].0 != pairs[j].0
  }

  lemma DistinctKeysTail<V>(pairs: seq<(string, V)>)
    requires pairs != [] && DistinctKeys(pairs)
    ensures DistinctKeys(pairs[1..])
  {
  }

  /** With distinct keys, the key at position i reads back the value there. */
  lemma {:induction false} MemberAt<V>(pairs: seq<(string, V)>, i: nat)
    requires DistinctKeys(pairs) && i < |pairs|
    ensures Member(pairs, pairs[i].0) == Some(pairs[i].1)
  {
    if i > 0 {
      DistinctKeysTail(pairs);
      MemberAt(pairs[1..], i - 1);
      assert pairs[1..][i - 1] == pairs[i];
    }
  }

  /** A key that no pair has reads back as nothing. */
  lemma MemberMissing<V>(pairs: seq<(string, V)>, key: string)
    requires forall i :: 0 <= i < |pairs| ==> pairs[i].0 != key
    ensures Member(pairs, key) == None
  {
  }

  /** With distinct keys, reading a key back after absent values are dropped
      gives exactly the value that was given for it, or nothing when it was
      absent. */
  lemma {:induction false} MemberOfPresent<V>(pairs: seq<(string, Option<V>)>, key: string)
    requires DistinctKeys(pairs)
    ensures Member(Present(pairs), key) == match Member(pairs, key) case Some(v) => v case None => None
  {
    if pairs != [] {
      DistinctKeysTail(pairs);
      MemberOfPresent(pairs[1..], key);
      if pairs[0].0 == key {
        assert Member(pairs[1..], key).None?;
      }
    }
  }
}
