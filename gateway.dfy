/** The request gateway, `harvest_request` (harvest-mcp-server.py:15-37): it
    refuses to run without credentials, builds the four headers and the URL
    of one call to the Harvest v2 API, places the parameters in the query
    (GET) or in a JSON body (any other method), makes exactly one round trip
    and classifies the response by its status.

    The HTTP client is not modelled: the round trip is the parameter `send`,
    a function from the request built to the response received, and the
    result records every request handed to it, so that "no request is made"
    and "exactly one request is made" can be stated. */
module Gateway {
  import opened Wrappers
  import opened Encoding

  /** A decoded JSON document (`response.json()`); the gateway never looks inside one. */
  type Payload(==)

  /** A Python float (the `hours` of a time entry); it is only passed through. */
  type Hours(==)

  /** A value in a parameter map: a string, a JSON integer, or a float passed through. */
  datatype Value = Str(s: string) | Int(i: int) | Num(hours: Hours)

  /** The `params` dictionary a tool hands to the gateway. */
  type Params = map<string, Value>

  /** The two process-wide settings, as `os.environ.get` returns them (None when unset). */
  datatype Credentials = Credentials(accountId: Option<string>, apiKey: Option<string>)

  /** One HTTP request as it leaves the server; `verb` is the HTTP method. */
  datatype HttpRequest = HttpRequest(
    verb: string,
    url: string,
    headers: map<string, string>,
    query: Option<Params>,
    body: Option<Params>)

  /** What the API answers: the status, the raw body text, and the body decoded as JSON. */
  datatype Response = Response(status: int, text: string, payload: Payload)

  /** The two exceptions `harvest_request` raises: the ValueError for missing
      credentials and the Exception for a non-200 status. */
  datatype Error = ConfigError | Upstream(status: int, text: string)

  /** The outcome of one gateway call: its result and the requests it sent, in order. */
  datatype Exchange = Exchange(result: Result<Payload, Error>, sent: seq<HttpRequest>)

  const BaseUrl: string := "https://api.harvestapp.com/v2/"
  const UserAgent: string := "Harvest MCP Server"
  const JsonContentType: string := "application/json"
  /** The authentication scheme of section 2.1 of RFC 6750, with the one space that separates it from the token. */
  const BearerPrefix: string := "Bearer "
  const CredentialsMessage: string :=
    "Missing Harvest API credentials. " + "Set HARVEST_ACCOUNT_ID and HARVEST_API_KEY environment variables."
  const UpstreamPrefix: string := "Harvest API Error: "

  /** Python truthiness of an environment lookup: set and not the empty string. */
  predicate Present(v: Option<string>) {
    v.Some? && v.value != ""
  }

  predicate Configured(c: Credentials) {
    Present(c.accountId) && Present(c.apiKey)
  }

  /** Reads the token back out of an Authorization header value that uses the Bearer scheme. */
  function BearerToken(authorization: string): (r: Option<string>)
    ensures r.Some? <==> BearerPrefix <= authorization
  {
    if BearerPrefix <= authorization then Some(authorization[|BearerPrefix|..]) else None
  }

  /** The headers of every request: exactly these four, the account id as given,
      the key as a Bearer token, a fixed agent name and the JSON content type. */
  function Headers(accountId: string, apiKey: string): (h: map<string, string>)
    ensures h.Keys == {"Harvest-Account-Id", "Authorization", "User-Agent", "Content-Type"}
    ensures h["Harvest-Account-Id"] == accountId
    ensures BearerToken(h["Authorization"]) == Some(apiKey)
    ensures h["User-Agent"] == UserAgent && h["Content-Type"] == JsonContentType
  {
    var auth := BearerPrefix + apiKey;
    assert auth[|BearerPrefix|..] == apiKey;
    map[
      "Harvest-Account-Id" := accountId,
      "Authorization" := auth,
      "User-Agent" := UserAgent,
      "Content-Type" := JsonContentType
    ]
  }

  /** The absolute URL of a path relative to the API root; the path can be read back after the root. */
  function Url(path: string): (u: string)
    ensures BaseUrl <= u && u[|BaseUrl|..] == path
  {
    var u := BaseUrl + path;
    assert u[|BaseUrl|..] == path;
    u
  }

  /** Everything `harvest_request` does before the round trip: the credential
      check, then the request with its headers, URL and the parameters in the
      query for GET and in the body for every other method. */
  function BuildRequest(creds: Credentials, path: string, params: Option<Params>, verb: string)
    : (r: Result<HttpRequest, Error>)
    ensures r.Err? <==> !Configured(creds)
    ensures r.Err? ==> r.error == ConfigError
    ensures r.Ok? ==>
      && r.value.verb == verb
      && r.value.url == Url(path)
      && r.value.headers == Headers(creds.accountId.value, creds.apiKey.value)
    ensures r.Ok? && verb == "GET" ==> r.value.query == params && r.value.body == None
    ensures r.Ok? && verb != "GET" ==> r.value.body == params && r.value.query == None
  {
    if !Present(creds.accountId) || !Present(creds.apiKey) then
      Err(ConfigError)
    else
      var headers := Headers(creds.accountId.value, creds.apiKey.value);
      var url := Url(path);
      if verb == "GET" then
        Ok(HttpRequest(verb, url, headers, params, None))
      else
        Ok(HttpRequest(verb, url, headers, None, params))
  }

  /** Classifies a response: only status 200 is success, and then the decoded
      payload is returned untouched; any other status, 2xx included, is an
      Upstream error carrying the status and the raw body text. */
  function Classify(resp: Response): (r: Result<Payload, Error>)
    ensures r.Ok? <==> resp.status == 200
    ensures r.Ok? ==> r.value == resp.payload
    ensures r.Err? ==> r.error == Upstream(resp.status, resp.text)
  {
    if resp.status != 200 then Err(Upstream(resp.status, resp.text)) else Ok(resp.payload)
  }

  /** `harvest_request(path, params, verb)` against the transport `send`.
      Without credentials nothing is sent and the transport is not consulted;
      with them exactly one request, the one built above, is sent, and the
      result is the classification of its response. */
  function HarvestRequest(
    creds: Credentials, send: HttpRequest -> Response,
    path: string, params: Option<Params>, verb: string)
    : (x: Exchange)
    ensures !Configured(creds) ==> x == Exchange(Err(ConfigError), [])
    ensures Configured(creds) ==>
      && |x.sent| == 1
      && BuildRequest(creds, path, params, verb) == Ok(x.sent[0])
      && x.result == Classify(send(x.sent[0]))
  {
    match BuildRequest(creds, path, params, verb)
    case Err(e) => Exchange(Err(e), [])
    case Ok(req) => Exchange(Classify(send(req)), [req])
  }

  /** The transport never influences a call made without credentials. */
  lemma NoCredentialsNoRequest(
    creds: Credentials, send1: HttpRequest -> Response, send2: HttpRequest -> Response,
    path: string, params: Option<Params>, verb: string)
    requires !Configured(creds)
    ensures HarvestRequest(creds, send1, path, params, verb)
         == HarvestRequest(creds, send2, path, params, verb)
    ensures HarvestRequest(creds, send1, path, params, verb).sent == []
  {
  }

  /** The text of the exception: the fixed message for missing credentials, and
      "Harvest API Error: <status> <text>" for an upstream failure. */
  function ErrorMessage(e: Error): (m: string)
  {
    match e
    case ConfigError => CredentialsMessage
    case Upstream(status, text) => UpstreamPrefix + IntToString(status) + " " + text
  }

  /** Index of the first occurrence of `c` in `s`. */
  function IndexOf(s: string, c: char): (r: Option<nat>)
    ensures r.Some? ==> r.value < |s| && s[r.value] == c
    ensures r.Some? ==> forall i :: 0 <= i < r.value ==> s[i] != c
    ensures r.None? ==> forall i :: 0 <= i < |s| ==> s[i] != c
  {
    if s == [] then None
    else if s[0] == c then Some(0)
    else match IndexOf(s[1..], c)
      case Some(i) => Some(i + 1)
      case None => None
  }

  /** Reads the status and the raw text back out of an upstream error message;
      None for any text that is not one. */
  function ParseUpstreamMessage(m: string): (r: Option<(int, string)>)
  {
    if !(UpstreamPrefix <= m) then None
    else
      var rest := m[|UpstreamPrefix|..];
      match IndexOf(rest, ' ')
      case None => None
      case Some(i) =>
        match ParseInt(rest[..i])
        case None => None
        case Some(status) => Some((status, rest[i + 1..]))
  }

  /** The message of an upstream error keeps the status and the raw body text
      verbatim: both can be read back from it. The credentials message is
      never mistaken for an upstream one. */
  lemma ErrorMessageRoundTrip(e: Error)
    ensures ParseUpstreamMessage(ErrorMessage(e))
         == if e.Upstream? then Some((e.status, e.text)) else None
  {
    var m := ErrorMessage(e);
    if e.Upstream? {
      var digits := IntToString(e.status);
      var rest := digits + " " + e.text;
      assert m == UpstreamPrefix + rest;
      assert m[|UpstreamPrefix|..] == rest;
      IntToStringChars(e.status);
      assert rest[|digits|] == ' ';
      assert forall i :: 0 <= i < |digits| ==> rest[i] != ' ' by {
        forall i | 0 <= i < |digits| ensures rest[i] != ' ' {
          assert rest[i] == digits[i];
        }
      }
      assert IndexOf(rest, ' ') == Some(|digits|);
      assert rest[..|digits|] == digits;
      assert rest[|digits| + 1..] == e.text;
      IntRoundTrip(e.status);
    } else {
      assert m == CredentialsMessage;
      assert CredentialsMessage[0] == 'M';
      assert UpstreamPrefix[0] == 'H';
    }
  }
}
