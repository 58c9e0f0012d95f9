/** The client's error taxonomy: exactly two kinds, each wrapping the error
    of the layer that failed, unchanged. */
module Errors {
  import Http

  datatype DingError =
    | Url(urlError: Http.ParseError)            // a URL could not be parsed or joined
    | Request(requestError: Http.ReqwestError)  // transport, error status or body decoding
  {
    /** Both kinds are `#[error(transparent)]`: the message is the source's. */
    function Message(): (m: string)
      ensures Url? ==> m == urlError.message
      ensures Request? ==> m == requestError.Message()
    {
      match this
      case Url(e) => e.message
      case Request(e) => e.Message()
    }
  }

  /** `From<url::ParseError>` and `From<reqwest::Error>`: the conversions `?`
      applies. Each is one-to-one, and the two never produce the same error. */
  lemma ConversionsKeepSource(a: Http.ParseError, b: Http.ParseError, e: Http.ReqwestError, f: Http.ReqwestError)
    ensures Url(a) == Url(b) ==> a == b
    ensures Request(e) == Request(f) ==> e == f
    ensures Url(a) != Request(e)
    ensures Url(a).urlError == a && Request(e).requestError == e
  {
  }
}
