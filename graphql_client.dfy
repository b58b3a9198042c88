/**
 * The session-token GraphQL client of internal/cerebras/graphql/client.go: constructor,
 * authentication check, cookie header, request body, the "no session token" precondition
 * and the status rule.  The transport is not modelled: the server's answer to the request
 * is a parameter (`Reply`).
 */
module GraphqlClient {
  import opened Wrappers
  import opened GoFmt

  const DefaultURL: string := "https://cloud.cerebras.ai/api/graphql"
  const ErrNoSessionToken: string := "GraphQL requests require session token authentication"
  const CookiePrefix: string := "authjs.session-token="
  const StatusOK: int := 200

  /** GraphQL variables; the monitor only ever sends string values. */
  type Variables = map<string, string>

  /** A value of the JSON request body: the query or operation name, or the variables object. */
  datatype BodyField = Text(text: string) | Vars(vars: Variables)

  /** An HTTP request as the client builds it (the fixed browser-like headers are not modelled). */
  datatype Request = Request(verb: string, url: string, headers: map<string, string>, body: map<string, BodyField>)

  /** What the transport returned for a request: a failure of the call itself, or a status and a body. */
  datatype Reply = TransportFailed(err: string) | Response(status: int, body: string)

  /** The cookie value that carries a session token. */
  function SessionCookie(token: string): string
  {
    CookiePrefix + token
  }

  /**
   * The JSON object sent as the request body: "query" and "variables" always, and
   * "operationName" exactly when a name is given.
   */
  method BuildRequestBody(operationName: string, query: string, variables: Variables)
    returns (body: map<string, BodyField>)
    ensures body.Keys == {"query", "variables"} + (if operationName != "" then {"operationName"} else {})
    ensures body["query"] == Text(query) && body["variables"] == Vars(variables)
    ensures operationName != "" ==> body["operationName"] == Text(operationName)
  {
    body := map["query" := Text(query), "variables" := Vars(variables)];
    if operationName != "" {
      body := body["operationName" := Text(operationName)];
    }
  }

  /**
   * The outcome of a GraphQL request made with `sessionToken`: the precondition error
   * without a token, whatever the server would have said; otherwise the transport's
   * failure, or its answer put through the status rule.
   */
  function RequestOutcome(sessionToken: string, reply: Reply): (r: Result<string, string>)
    ensures sessionToken == "" ==> r == Failure(ErrNoSessionToken)
    ensures r.Success? ==> reply.Response? && reply.status == StatusOK && r.value == reply.body
    ensures sessionToken != "" && reply.Response? ==> (r.Success? <==> reply.status == StatusOK)
    ensures sessionToken != "" && reply.Response? && r.Failure? ==> r.error == StatusError(reply.status, reply.body)
    ensures sessionToken != "" && reply.TransportFailed? ==> r == Failure(reply.err)
  {
    if sessionToken == "" then Failure(ErrNoSessionToken)
    else match reply
      case TransportFailed(e) => Failure(e)
      case Response(status, body) => CheckStatus(status, body)
  }

  /** The error text for a non-200 answer. */
  function StatusError(status: int, body: string): (e: string)
    ensures "GraphQL request failed with status code: " <= e
    ensures |body| <= |e| && e[|e| - |body|..] == body
  {
    "GraphQL request failed with status code: " + FormatInt(status) + ", body: " + body
  }

  /** Status 200 yields the body byte for byte; any other status yields an error carrying the code and the body. */
  function CheckStatus(status: int, body: string): (r: Result<string, string>)
    ensures r.Success? <==> status == StatusOK
    ensures r.Success? ==> r.value == body
    ensures r.Failure? ==> r.error == StatusError(status, body)
  {
    if status != StatusOK then Failure(StatusError(status, body)) else Success(body)
  }

  /** The status error names the code, readable back as a decimal number, and ends with the body. */
  lemma StatusErrorCarriesCodeAndBody(status: int, body: string)
    requires 0 <= status <= 0x7fff_ffff_ffff_ffff
    ensures var e := StatusError(status, body);
            var p := |"GraphQL request failed with status code: "|;
            var n := |FormatInt(status)|;
            p + n <= |e| && ParseInt(e[p..p + n]) == Some(status) && e[|e| - |body|..] == body
  {
    var e := StatusError(status, body);
    var p := |"GraphQL request failed with status code: "|;
    var f := FormatInt(status);
    assert e == "GraphQL request failed with status code: " + f + (", body: " + body);
    assert e[p..p + |f|] == f;
    assert e[|e| - |body|..] == body;
    FormatParseRoundTrip(status);
  }

  class Client {
    var sessionToken: string
    var url: string

    /** NewClient: stores the token verbatim and points at the fixed GraphQL endpoint. */
    constructor (sessionToken: string)
      ensures this.sessionToken == sessionToken && url == DefaultURL
    {
      this.sessionToken := sessionToken;
      url := DefaultURL;
    }

    /** Session-token authentication is configured. */
    function HasAuth(): (r: bool)
      reads this
      ensures r <==> sessionToken != ""
    {
      sessionToken != ""
    }

    function SessionToken(): string
      reads this
    {
      sessionToken
    }

    /** The authentication headers: one session cookie when a token is set, none otherwise; never an Authorization header. */
    method GetAuthHeaders() returns (headers: map<string, string>)
      ensures HasAuth() <==> headers != map[]
      ensures HasAuth() ==> headers == map["Cookie" := SessionCookie(sessionToken)]
      ensures "Authorization" !in headers
    {
      headers := map[];
      if sessionToken != "" {
        headers := headers["Cookie" := SessionCookie(sessionToken)];
        assert "Cookie" in headers;
      }
    }

    /**
     * MakeRequestWithOperationName.  Without a session token it fails with the fixed
     * message and builds no request (`sent == None`); otherwise it builds a POST to `url`
     * with the cookie and the JSON body, and maps the transport's answer through the
     * status rule.
     */
    method MakeRequestWithOperationName(operationName: string, query: string, variables: Variables, reply: Reply)
      returns (sent: Option<Request>, r: Result<string, string>)
      ensures sent.None? <==> !HasAuth()
      ensures !HasAuth() ==> r == Failure(ErrNoSessionToken)
      ensures sent.Some? ==> sent.value.verb == "POST" && sent.value.url == url
      ensures sent.Some? ==> "Cookie" in sent.value.headers && sent.value.headers["Cookie"] == SessionCookie(sessionToken)
      ensures sent.Some? ==> sent.value.headers == map["Cookie" := SessionCookie(sessionToken), "Content-Type" := "application/json"]
      ensures sent.Some? ==> sent.value.body.Keys == {"query", "variables"} + (if operationName != "" then {"operationName"} else {})
      ensures sent.Some? ==> sent.value.body["query"] == Text(query) && sent.value.body["variables"] == Vars(variables)
      ensures sent.Some? && operationName != "" ==> sent.value.body["operationName"] == Text(operationName)
      ensures r == RequestOutcome(sessionToken, reply)
    {
      if sessionToken == "" {
        return None, Failure(ErrNoSessionToken);
      }
      var body := BuildRequestBody(operationName, query, variables);
      var headers := GetAuthHeaders();
      headers := headers["Content-Type" := "application/json"];
      sent := Some(Request("POST", url, headers, body));
      match reply
      case TransportFailed(e) =>
        r := Failure(e);
      case Response(status, responseBody) =>
        r := CheckStatus(status, responseBody);
    }

    /** MakeRequest: the same request without an operation name. */
    method MakeRequest(query: string, variables: Variables, reply: Reply)
      returns (sent: Option<Request>, r: Result<string, string>)
      ensures sent.None? <==> !HasAuth()
      ensures sent.Some? ==> sent.value.verb == "POST" && sent.value.url == url
      ensures sent.Some? ==> sent.value.headers == map["Cookie" := SessionCookie(sessionToken), "Content-Type" := "application/json"]
      ensures sent.Some? ==> sent.value.body == map["query" := Text(query), "variables" := Vars(variables)]
      ensures r == RequestOutcome(sessionToken, reply)
    {
      sent, r := MakeRequestWithOperationName("", query, variables, reply);
    }
  }
}
