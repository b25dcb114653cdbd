/** The Riot request helper of js/services/riotApi.js: `getHeaders`, which
    refuses to build a request without a key, and `riotFetch`, which turns an
    HTTP reply into a value or an error message. */
module RiotFetch {
  import opened Wrappers
  import opened Text

  const KeyMissing := "Riot API key not configured. Please add your API key in Settings."
  const InvalidKey := "Invalid API key. Please check your Riot API key."
  const KeyForbidden := "API key expired or forbidden. Please regenerate your key."
  const NotFound := "Summoner not found."
  const RateLimited := "Rate limit exceeded. Please wait and try again."
  const CorsError := "CORS error. Please ensure proxy server is running."
  const ProxyDown := "Cannot connect to proxy. Run: npm install && npm run proxy"

  /** The two fields of an error body the helper reads: `error` and `status.message`. */
  datatype ErrorData = ErrorData(error: Option<string>, statusMessage: Option<string>)

  const NoErrorData := ErrorData(None, None)

  /** A reply body: JSON, read both as the expected value and for its error
      fields, or text that does not parse as JSON. */
  datatype Body<T> = Parsed(value: T, errorData: ErrorData) | Unparsable(parseError: string)

  /** What `fetch` produces: a rejection (an error name and message) or a reply. */
  datatype Reply<T> = Rejected(name: string, message: string) | Answered(status: int, body: Body<T>)

  /** The request sent: URL, `X-Riot-Token` and `Accept` headers. */
  datatype Request = Request(url: string, token: string, accept: string)

  /** A call through the helper: its result, and the request it sent if any. */
  datatype Call<T> = Call(result: Result<T>, sent: Option<Request>)

  /** `response.ok`. */
  predicate IsOk(status: int) {
    200 <= status <= 299
  }

  /** `s || fallback` for an optional string. */
  function OrElse(s: Option<string>, fallback: string): string {
    if s.Some? && s.value != "" then s.value else fallback
  }

  /** `getHeaders`: the key header, or the configuration error when no key is set. */
  function Headers(apiKey: string): (r: Result<(string, string)>)
    ensures r.Err? <==> apiKey == ""
    ensures r.Err? ==> r.message == KeyMissing
    ensures r.Ok? ==> r.value.0 == apiKey
  {
    if apiKey == "" then Err(KeyMissing) else Ok((apiKey, "application/json"))
  }

  /** The error message of a reply that is not ok, by status. */
  function StatusMessage(status: int, data: ErrorData): (msg: string)
    requires !IsOk(status)
    ensures status == 401 ==> msg == InvalidKey
    ensures status == 403 ==> msg == KeyForbidden
    ensures status == 404 ==> msg == NotFound
    ensures status == 429 ==> msg == RateLimited
    ensures status == 500 ==>
      msg == (if data.error.Some? && Contains(data.error.value, "CORS") then CorsError
              else OrElse(data.error, "Server error 500"))
    ensures status !in {401, 403, 404, 429, 500} ==>
      msg == OrElse(data.statusMessage, OrElse(data.error, "HTTP error " + IntToString(status)))
  {
    match status
    case 401 => InvalidKey
    case 403 => KeyForbidden
    case 404 => NotFound
    case 429 => RateLimited
    case 500 =>
      if data.error.Some? && Contains(data.error.value, "CORS") then CorsError
      else OrElse(data.error, "Server error " + IntToString(status))
    case _ => OrElse(data.statusMessage, OrElse(data.error, "HTTP error " + IntToString(status)))
  }

  /** `riotFetch(url)` against a network answering `reply`: no request without a
      key; an ok reply gives its JSON; otherwise the status message; a rejected
      `fetch` with `TypeError: Failed to fetch` becomes the proxy hint. */
  function Fetch<T>(apiKey: string, url: string, reply: Reply<T>): (c: Call<T>)
    ensures apiKey == "" ==> c == Call(Err(KeyMissing), None)
    ensures apiKey != "" ==> c.sent == Some(Request(url, apiKey, "application/json"))
    ensures apiKey != "" && reply.Answered? && !IsOk(reply.status) ==>
      c.result == Err(StatusMessage(reply.status, if reply.body.Parsed? then reply.body.errorData else NoErrorData))
    ensures apiKey != "" && reply.Rejected? ==>
      c.result == Err(if reply.name == "TypeError" && reply.message == "Failed to fetch" then ProxyDown else reply.message)
    ensures apiKey != "" && reply.Answered? && IsOk(reply.status) && reply.body.Unparsable? ==>
      c.result == Err(reply.body.parseError)
  {
    match Headers(apiKey)
    case Err(m) => Call(Err(m), None)
    case Ok(h) =>
      var sent := Some(Request(url, h.0, h.1));
      match reply
      case Rejected(name, message) =>
        if name == "TypeError" && message == "Failed to fetch" then Call(Err(ProxyDown), sent)
        else Call(Err(message), sent)
      case Answered(status, body) =>
        if !IsOk(status) then
          var data := if body.Parsed? then body.errorData else NoErrorData;
          Call(Err(StatusMessage(status, data)), sent)
        else
          match body
          case Parsed(v, _) => Call(Ok(v), sent)
          case Unparsable(e) => Call(Err(e), sent)
  }

  /** The helper succeeds exactly when a key is set and the reply is ok and parses;
      its value is then the parsed body. */
  lemma FetchOkIff<T>(apiKey: string, url: string, reply: Reply<T>)
    ensures Fetch(apiKey, url, reply).result.Ok? <==>
      apiKey != "" && reply.Answered? && IsOk(reply.status) && reply.body.Parsed?
    ensures Fetch(apiKey, url, reply).result.Ok? ==>
      Fetch(apiKey, url, reply).result.value == reply.body.value
  {
  }

  /** Every failure the helper reports carries a non-empty message, except a
      rejection of `fetch` whose own message is empty or an unparsable ok body
      whose parse error is empty. */
  lemma FetchErrorsNonEmpty<T>(apiKey: string, url: string, reply: Reply<T>)
    requires reply.Rejected? ==> reply.message != ""
    requires reply.Answered? && IsOk(reply.status) && reply.body.Unparsable? ==> reply.body.parseError != ""
    ensures Fetch(apiKey, url, reply).result.Err? ==> Fetch(apiKey, url, reply).result.message != ""
  {
  }
}
