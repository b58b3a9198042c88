/**
 * The main API client of internal/cerebras/client.go: where its two credentials come from,
 * which authentication header it sends, and its GraphQL request path.  Environment
 * variables and the configuration store are passed in as maps; an unset key reads as "".
 */
module CerebrasClient {
  import opened Wrappers
  import GraphqlClient

  const BaseURL: string := "https://api.cerebras.ai"
  const GraphqlURL: string := "https://cloud.cerebras.ai/api/graphql"

  const ApiKeyEnv: string := "CEREBRAS_API_KEY"
  const SessionTokenEnv: string := "CEREBRAS_SESSION_TOKEN"
  const ApiKeyConfig: string := "api-key"
  const SessionTokenConfig: string := "session-token"

  const BearerPrefix: string := "Bearer "

  /** `os.Getenv(key)` or `viper.GetString(key)`: the stored value, or "" when the key is unset. */
  function Lookup(store: map<string, string>, key: string): string
  {
    if key in store then store[key] else ""
  }

  /**
   * One credential: the environment's value when it is non-empty, otherwise the
   * configuration's.  The result is set exactly when one of the two sources sets it.
   */
  function Resolve(fromEnv: string, fromConfig: string): (r: string)
    ensures r != "" <==> fromEnv != "" || fromConfig != ""
    ensures fromEnv != "" ==> r == fromEnv
    ensures r == fromEnv || r == fromConfig
  {
    if fromEnv != "" then fromEnv else fromConfig
  }

  /**
   * The headers of a GraphQL request from this client: the JSON content type and one
   * credential, the Bearer header when an API key is set and the session cookie otherwise,
   * never both.
   */
  function RequestHeaders(apiKey: string, sessionToken: string): (h: map<string, string>)
    requires sessionToken != ""
    ensures "Content-Type" in h && h["Content-Type"] == "application/json"
    ensures apiKey != "" ==> "Cookie" !in h && "Authorization" in h && h["Authorization"] == BearerPrefix + apiKey
    ensures apiKey == "" ==> "Authorization" !in h && "Cookie" in h && h["Cookie"] == GraphqlClient.SessionCookie(sessionToken)
    ensures h.Keys == {"Content-Type", if apiKey != "" then "Authorization" else "Cookie"}
  {
    if apiKey != "" then map["Authorization" := BearerPrefix + apiKey, "Content-Type" := "application/json"]
    else map["Cookie" := GraphqlClient.SessionCookie(sessionToken), "Content-Type" := "application/json"]
  }

  /** getAuthHeaders' credential with the content type added is exactly RequestHeaders. */
  lemma WithContentType(apiKey: string, sessionToken: string, auth: map<string, string>)
    requires sessionToken != ""
    requires apiKey != "" ==> auth == map["Authorization" := BearerPrefix + apiKey]
    requires apiKey == "" ==> auth == map["Cookie" := GraphqlClient.SessionCookie(sessionToken)]
    ensures auth["Content-Type" := "application/json"] == RequestHeaders(apiKey, sessionToken)
  {
  }

  class Client {
    var apiKey: string
    var sessionToken: string
    var baseURL: string
    var graphqlURL: string

    /**
     * NewClient: each credential is resolved on its own, environment first; the two URLs
     * are fixed.
     */
    constructor (env: map<string, string>, config: map<string, string>)
      ensures apiKey == Resolve(Lookup(env, ApiKeyEnv), Lookup(config, ApiKeyConfig))
      ensures sessionToken == Resolve(Lookup(env, SessionTokenEnv), Lookup(config, SessionTokenConfig))
      ensures baseURL == BaseURL && graphqlURL == GraphqlURL
    {
      baseURL := BaseURL;
      graphqlURL := GraphqlURL;
      var envKey := Lookup(env, ApiKeyEnv);
      if envKey != "" {
        apiKey := envKey;
      } else {
        apiKey := Lookup(config, ApiKeyConfig);
      }
      var envToken := Lookup(env, SessionTokenEnv);
      if envToken != "" {
        sessionToken := envToken;
      } else {
        sessionToken := Lookup(config, SessionTokenConfig);
      }
    }

    /** Some authentication is configured: an API key, a session token or both. */
    function HasAuth(): (r: bool)
      reads this
      ensures r <==> apiKey != "" || sessionToken != ""
    {
      apiKey != "" || sessionToken != ""
    }

    function APIKey(): string
      reads this
    {
      apiKey
    }

    function SessionToken(): string
      reads this
    {
      sessionToken
    }

    /**
     * getAuthHeaders: at most one header.  The API key wins (a Bearer Authorization header)
     * even when a session token is also set; with only a token it is the session cookie;
     * with neither the map is empty.
     */
    method GetAuthHeaders() returns (headers: map<string, string>)
      ensures apiKey != "" ==> headers == map["Authorization" := BearerPrefix + apiKey]
      ensures apiKey == "" && sessionToken != "" ==> headers == map["Cookie" := GraphqlClient.SessionCookie(sessionToken)]
      ensures !HasAuth() <==> headers == map[]
      ensures HasAuth() <==> |headers| == 1
    {
      headers := map[];
      if apiKey != "" {
        headers := headers["Authorization" := BearerPrefix + apiKey];
      } else if sessionToken != "" {
        headers := headers["Cookie" := GraphqlClient.SessionCookie(sessionToken)];
      }
      assert headers != map[] ==> "Authorization" in headers || "Cookie" in headers;
    }

    /**
     * MakeGraphQLRequestWithOperationName.  It refuses to build a request without a
     * session token.  Otherwise it POSTs the same JSON body as the GraphQL client to
     * `graphqlURL`, but with this client's authentication headers, so that with an API
     * key configured the request carries the Bearer header and no session cookie.
     */
    method MakeGraphQLRequestWithOperationName(operationName: string, query: string,
                                               variables: GraphqlClient.Variables, reply: GraphqlClient.Reply)
      returns (sent: Option<GraphqlClient.Request>, r: Result<string, string>)
      ensures sent.None? <==> sessionToken == ""
      ensures sessionToken == "" ==> r == Failure(GraphqlClient.ErrNoSessionToken)
      ensures sent.Some? ==> sent.value.verb == "POST" && sent.value.url == graphqlURL
      ensures sent.Some? ==> sent.value.body.Keys == {"query", "variables"} + (if operationName != "" then {"operationName"} else {})
      ensures sent.Some? ==> sent.value.body["query"] == GraphqlClient.Text(query)
      ensures sent.Some? ==> sent.value.body["variables"] == GraphqlClient.Vars(variables)
      ensures sent.Some? && operationName != "" ==> sent.value.body["operationName"] == GraphqlClient.Text(operationName)
      ensures sent.Some? ==> sent.value.headers == RequestHeaders(apiKey, sessionToken)
      ensures r == GraphqlClient.RequestOutcome(sessionToken, reply)
    {
      if sessionToken == "" {
        return None, Failure(GraphqlClient.ErrNoSessionToken);
      }
      var body := GraphqlClient.BuildRequestBody(operationName, query, variables);
      var headers := GetAuthHeaders();
      WithContentType(apiKey, sessionToken, headers);
      headers := headers["Content-Type" := "application/json"];
      sent := Some(GraphqlClient.Request("POST", graphqlURL, headers, body));
      match reply
      case TransportFailed(e) =>
        r := Failure(e);
      case Response(status, responseBody) =>
        r := GraphqlClient.CheckStatus(status, responseBody);
    }

    /** MakeGraphQLRequest and MakeGraphQLRequestWithDebug: the same request without an operation name. */
    method MakeGraphQLRequest(query: string, variables: GraphqlClient.Variables, reply: GraphqlClient.Reply)
      returns (sent: Option<GraphqlClient.Request>, r: Result<string, string>)
      ensures sent.None? <==> sessionToken == ""
      ensures sessionToken == "" ==> r == Failure(GraphqlClient.ErrNoSessionToken)
      ensures sent.Some? ==> sent.value.verb == "POST" && sent.value.url == graphqlURL
      ensures sent.Some? ==> sent.value.headers == RequestHeaders(apiKey, sessionToken)
      ensures sent.Some? ==> sent.value.body == map["query" := GraphqlClient.Text(query), "variables" := GraphqlClient.Vars(variables)]
      ensures r == GraphqlClient.RequestOutcome(sessionToken, reply)
    {
      sent, r := MakeGraphQLRequestWithOperationName("", query, variables, reply);
    }
  }
}
