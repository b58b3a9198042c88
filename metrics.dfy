/**
 * Rate-limit metrics assembly of internal/cerebras/metrics.go.  `GetMetrics` picks one of
 * two data paths from the configured credentials: the quota/usage path over GraphQL (a
 * session token and an organisation), or the header path (an API key), whose numbers
 * come from the rate-limit headers of a one-token chat completion.  The two are never
 * merged.  The HTTP exchanges and JSON decoding are inputs (`Sources`).
 */
module Metrics {
  import opened Wrappers
  import opened GoNum
  import opened GoFmt
  import GraphqlClient
  import CerebrasClient

  /** The snapshot handed to the dashboard: two limits, two remaining counts, two reset times in seconds. */
  datatype RateLimitInfo = RateLimitInfo(
    limitRequestsDay: int64,
    limitTokensMinute: int64,
    remainingRequestsDay: int64,
    remainingTokensMinute: int64,
    resetRequestsDay: int64,
    resetTokensMinute: int64)

  const EmptyInfo: RateLimitInfo := RateLimitInfo(0, 0, 0, 0, 0, 0)

  /** One row of ListOrganizationUsageQuotas; counts are decimal strings, "" when absent. */
  datatype UsageQuota = UsageQuota(modelId: string, regionId: string, requestsPerDay: string, tokensPerMinute: string)

  /** One row of ListOrganizationUsage. */
  datatype OrganizationUsage = OrganizationUsage(modelId: string, regionId: string, tpm: string, rpd: string)

  /** What `json.Unmarshal` made of a response body. */
  datatype Decoded<T> = Rows(rows: seq<T>) | DecodeError(detail: string)

  /** The answer to the header probe: the call failed, or a status and the (canonical-keyed) response headers. */
  datatype HeaderReply = ProbeFailed(err: string) | ProbeResponse(status: int, headers: map<string, string>)

  /** Everything the outside world answers during one `GetMetrics` call. */
  datatype Sources = Sources(
    quotaReply: GraphqlClient.Reply,
    quotaRows: Decoded<UsageQuota>,
    usageReply: GraphqlClient.Reply,
    usageRows: Decoded<OrganizationUsage>,
    probe: HeaderReply)

  /** The request the header path sends. */
  datatype ProbeRequest = ProbeRequest(url: string, model: string, headers: map<string, string>)

  const ErrNoAuth: string := "no authentication method configured"
  const ErrOrganizationRequired: string := "organization ID is required when using session token authentication"
  const ErrNoValidAuth: string := "no valid authentication method found"
  const ParseErrorPrefix: string := "failed to parse GraphQL response: "
  const DefaultProbeModel: string := "qwen-3-coder-480b"

  const LimitRequestsDayHeader: string := "X-Ratelimit-Limit-Requests-Day"
  const LimitTokensMinuteHeader: string := "X-Ratelimit-Limit-Tokens-Minute"
  const RemainingRequestsDayHeader: string := "X-Ratelimit-Remaining-Requests-Day"
  const RemainingTokensMinuteHeader: string := "X-Ratelimit-Remaining-Tokens-Minute"
  const ResetRequestsDayHeader: string := "X-Ratelimit-Reset-Requests-Day"
  const ResetTokensMinuteHeader: string := "X-Ratelimit-Reset-Tokens-Minute"

  // ---------------------------------------------------------------------------------------
  // Dispatch

  datatype Path = QuotaUsagePath | HeaderPath | Refused(err: string)

  /**
   * Which data path `GetMetrics` takes.  No credential: refused.  A session token with an
   * organisation: the quota/usage path, even when an API key is set too.  Otherwise an
   * API key: the header path.  Otherwise (a token without organisation): refused.  The
   * final "no valid authentication method" return is unreachable.
   */
  function Dispatch(apiKey: string, sessionToken: string, organization: string): (p: Path)
    ensures p == Refused(ErrNoAuth) <==> apiKey == "" && sessionToken == ""
    ensures p == QuotaUsagePath <==> sessionToken != "" && organization != ""
    ensures p == HeaderPath <==> apiKey != "" && (sessionToken == "" || organization == "")
    ensures p == Refused(ErrOrganizationRequired) <==> apiKey == "" && sessionToken != "" && organization == ""
    ensures p != Refused(ErrNoValidAuth)
  {
    if apiKey == "" && sessionToken == "" then Refused(ErrNoAuth)
    else if sessionToken != "" && organization != "" then QuotaUsagePath
    else if apiKey != "" then HeaderPath
    else if sessionToken != "" then Refused(ErrOrganizationRequired)
    else Refused(ErrNoValidAuth)
  }

  // ---------------------------------------------------------------------------------------
  // Quota/usage path

  /**
   * The `parse` helper: the value of a decimal count, or 0 for an empty, malformed,
   * out-of-range or negative string (-1 means "unlimited" upstream and is shown as unknown).
   */
  function Parse(s: string): (n: int64)
    ensures n >= 0
    ensures n > 0 ==> ParseInt(s) == Some(n)
    ensures ParseInt(s).Some? && ParseInt(s).value >= 0 ==> n == ParseInt(s).value
  {
    if s == "" then 0
    else match ParseInt(s)
      case None => 0
      case Some(v) => if v < 0 then 0 else v
  }

  /** Every count that `FormatInt` writes is read back by `Parse`. */
  lemma ParseCountRoundTrip(n: int64)
    requires n >= 0
    ensures Parse(FormatInt(n)) == n
  {
    FormatParseRoundTrip(n);
  }

  /** The "-1" sentinel and other negative counts read as 0. */
  lemma ParseNegativeIsZero(n: int64)
    requires n < 0
    ensures Parse(FormatInt(n)) == 0
  {
    FormatParseRoundTrip(n);
  }

  /** The index of the first element satisfying `p`, if any. */
  function FirstIndex<T>(s: seq<T>, p: T -> bool): (r: Option<nat>)
    ensures r.Some? ==> r.value < |s| && p(s[r.value])
    ensures r.Some? ==> forall j :: 0 <= j < r.value ==> !p(s[j])
    ensures r.None? ==> forall j :: 0 <= j < |s| ==> !p(s[j])
  {
    if s == [] then None
    else if p(s[0]) then Some(0)
    else match FirstIndex(s[1..], p)
      case None => None
      case Some(i) => Some(i + 1)
  }

  /**
   * The quota row the monitor reports on: the first row for the configured model, or row 0
   * when no model is configured or no row is for it.
   */
  function SelectedIndex(rows: seq<UsageQuota>, model: string): (k: nat)
    requires |rows| > 0
    ensures k < |rows|
    ensures model == "" ==> k == 0
    ensures model != "" && (exists j :: 0 <= j < |rows| && rows[j].modelId == model) ==>
              rows[k].modelId == model && forall j :: 0 <= j < k ==> rows[j].modelId != model
    ensures (forall j :: 0 <= j < |rows| ==> rows[j].modelId != model) ==> k == 0
  {
    if model == "" then 0
    else match FirstIndex(rows, (q: UsageQuota) => q.modelId == model)
      case None => 0
      case Some(i) => i
  }

  /** The loop with `break` that picks the quota row. */
  method SelectQuota(rows: seq<UsageQuota>, model: string) returns (selected: UsageQuota)
    requires |rows| > 0
    ensures selected == rows[SelectedIndex(rows, model)]
  {
    selected := rows[0];
    if model != "" {
      var i := 0;
      while i < |rows|
        invariant 0 <= i <= |rows|
        invariant forall j :: 0 <= j < i ==> rows[j].modelId != model
        invariant selected == rows[0]
      {
        if rows[i].modelId == model {
          selected := rows[i];
          break;
        }
        i := i + 1;
      }
    }
  }

  /** A usage row belongs to the selected quota: same model, and same region unless the quota's region is empty. */
  predicate UsageMatches(u: OrganizationUsage, selected: UsageQuota)
  {
    u.modelId == selected.modelId && (selected.regionId == "" || u.regionId == selected.regionId)
  }

  /** The first usage row that belongs to the selected quota, if any. */
  function MatchedUsage(rows: seq<OrganizationUsage>, selected: UsageQuota): (m: Option<OrganizationUsage>)
    ensures m.Some? ==> UsageMatches(m.value, selected)
    ensures m.Some? ==> exists i :: 0 <= i < |rows| && rows[i] == m.value && forall j :: 0 <= j < i ==> !UsageMatches(rows[j], selected)
    ensures m.None? <==> forall j :: 0 <= j < |rows| ==> !UsageMatches(rows[j], selected)
  {
    match FirstIndex(rows, (u: OrganizationUsage) => UsageMatches(u, selected))
    case None => None
    case Some(i) => Some(rows[i])
  }

  /** The loop that sets `matched`, the first usage row that fits. */
  method MatchUsage(rows: seq<OrganizationUsage>, selected: UsageQuota) returns (matched: Option<OrganizationUsage>)
    ensures matched == MatchedUsage(rows, selected)
  {
    matched := None;
    var i := 0;
    while i < |rows|
      invariant 0 <= i <= |rows|
      invariant forall j :: 0 <= j < i ==> !UsageMatches(rows[j], selected)
      invariant matched == None
    {
      var u := rows[i];
      if u.modelId == selected.modelId {
        if selected.regionId == "" || u.regionId == selected.regionId {
          matched := Some(u);
          break;
        }
      }
      i := i + 1;
    }
  }

  /**
   * What is left of a limit after `used`: never negative and never above the limit, and
   * exactly `limit - used` when that lies in between.  A zero (unknown) limit leaves 0.
   */
  function RemainingAfter(limit: int64, used: int64): (r: int64)
    requires limit >= 0 && used >= 0
    ensures 0 <= r <= limit
    ensures limit > 0 && used <= limit ==> r == limit - used
    ensures limit > 0 && used >= limit ==> r == 0
    ensures limit == 0 ==> r == 0
  {
    if limit > 0 then (if limit - used < 0 then 0 else limit - used) else 0
  }

  /**
   * The remaining counts filled in from the matching usage row: what is left of each limit,
   * or the limits themselves when no row matched.
   */
  function WithRemaining(limits: RateLimitInfo, matched: Option<OrganizationUsage>): (info: RateLimitInfo)
    requires limits.limitRequestsDay >= 0 && limits.limitTokensMinute >= 0
    ensures info == limits.(remainingRequestsDay := info.remainingRequestsDay, remainingTokensMinute := info.remainingTokensMinute)
    ensures 0 <= info.remainingRequestsDay <= info.limitRequestsDay
    ensures 0 <= info.remainingTokensMinute <= info.limitTokensMinute
    ensures matched.None? ==> info.remainingRequestsDay == info.limitRequestsDay && info.remainingTokensMinute == info.limitTokensMinute
  {
    match matched
    case None => limits.(remainingRequestsDay := limits.limitRequestsDay, remainingTokensMinute := limits.limitTokensMinute)
    case Some(u) =>
      limits.(remainingRequestsDay := RemainingAfter(limits.limitRequestsDay, Parse(u.rpd)),
              remainingTokensMinute := RemainingAfter(limits.limitTokensMinute, Parse(u.tpm)))
  }

  /**
   * The snapshot of the quota/usage path from the decoded rows.  No rows: all zero.
   * Otherwise the limits of the selected row, remaining counts from the matching usage
   * row, or equal to the limits when there is no usage data or no matching row; resets are
   * always 0 on this path.
   */
  function SessionMetrics(rows: seq<UsageQuota>, model: string, usage: Option<seq<OrganizationUsage>>): (info: RateLimitInfo)
    ensures rows == [] ==> info == EmptyInfo
    ensures info.resetRequestsDay == 0 && info.resetTokensMinute == 0
    ensures 0 <= info.remainingRequestsDay <= info.limitRequestsDay
    ensures 0 <= info.remainingTokensMinute <= info.limitTokensMinute
    ensures rows != [] ==>
              info.limitRequestsDay == Parse(rows[SelectedIndex(rows, model)].requestsPerDay) &&
              info.limitTokensMinute == Parse(rows[SelectedIndex(rows, model)].tokensPerMinute)
  {
    if rows == [] then EmptyInfo
    else
      var selected := rows[SelectedIndex(rows, model)];
      var limits := RateLimitInfo(Parse(selected.requestsPerDay), Parse(selected.tokensPerMinute), 0, 0, 0, 0);
      WithRemaining(limits, if usage.Some? then MatchedUsage(usage.value, selected) else None)
  }

  /** The usage rows, when the usage request succeeded and its body decoded; `None` otherwise. */
  function UsageData(sessionToken: string, src: Sources): (u: Option<seq<OrganizationUsage>>)
    ensures u.Some? <==> GraphqlClient.RequestOutcome(sessionToken, src.usageReply).Success? && src.usageRows.Rows?
    ensures u.Some? ==> u.value == src.usageRows.rows
    ensures sessionToken == "" ==> u.None?
  {
    match GraphqlClient.RequestOutcome(sessionToken, src.usageReply)
    case Failure(_) => None
    case Success(_) =>
      match src.usageRows
      case Rows(rows) => Some(rows)
      case DecodeError(_) => None
  }

  /**
   * The whole quota/usage path: a failed quota request or an undecodable body is an
   * error; anything that goes wrong with the usage request only costs the usage data.
   */
  function SessionOutcome(sessionToken: string, model: string, src: Sources): (r: Result<RateLimitInfo, string>)
    ensures sessionToken == "" ==> r == Failure(GraphqlClient.ErrNoSessionToken)
    ensures r.Success? <==> GraphqlClient.RequestOutcome(sessionToken, src.quotaReply).Success? && src.quotaRows.Rows?
    ensures GraphqlClient.RequestOutcome(sessionToken, src.quotaReply).Success? && src.quotaRows.DecodeError? ==>
              r == Failure(ParseErrorPrefix + src.quotaRows.detail)
    ensures r.Success? ==> r.value == SessionMetrics(src.quotaRows.rows, model, UsageData(sessionToken, src))
  {
    match GraphqlClient.RequestOutcome(sessionToken, src.quotaReply)
    case Failure(e) => Failure(e)
    case Success(_) =>
      match src.quotaRows
      case DecodeError(d) => Failure(ParseErrorPrefix + d)
      case Rows(rows) => Success(SessionMetrics(rows, model, UsageData(sessionToken, src)))
  }

  /** getMetricsWithSessionToken: two GraphQL requests, then `limits` filled field by field. */
  method GetMetricsWithSessionToken(c: CerebrasClient.Client, organization: string, model: string, src: Sources)
    returns (r: Result<RateLimitInfo, string>)
    ensures r == SessionOutcome(c.sessionToken, model, src)
  {
    var variables := map["organizationId" := organization];
    var _, quotaBody := c.MakeGraphQLRequest(ListOrganizationUsageQuotasQuery, variables, src.quotaReply);
    if quotaBody.Failure? {
      return Failure(quotaBody.error);
    }
    if src.quotaRows.DecodeError? {
      return Failure(ParseErrorPrefix + src.quotaRows.detail);
    }
    var rows := src.quotaRows.rows;
    if |rows| == 0 {
      return Success(RateLimitInfo(0, 0, 0, 0, 0, 0));
    }
    var selected := SelectQuota(rows, model);
    var limits := RateLimitInfo(Parse(selected.requestsPerDay), Parse(selected.tokensPerMinute), 0, 0, 0, 0);
    var _, usageBody := c.MakeGraphQLRequest(ListOrganizationUsageQuery, variables, src.usageReply);
    var matched: Option<OrganizationUsage> := None;
    if usageBody.Success? && src.usageRows.Rows? {
      matched := MatchUsage(src.usageRows.rows, selected);
    }
    limits := FillRemaining(limits, matched);
    return Success(limits);
  }

  /**
   * The remaining counts set field by field: from the matched usage row for each positive
   * limit, clamped at 0, or equal to the limits when nothing matched or the usage data is
   * missing.
   */
  method FillRemaining(limits: RateLimitInfo, matched: Option<OrganizationUsage>) returns (out: RateLimitInfo)
    requires limits.limitRequestsDay >= 0 && limits.limitTokensMinute >= 0
    requires limits.remainingRequestsDay == 0 && limits.remainingTokensMinute == 0
    ensures out == WithRemaining(limits, matched)
  {
    out := limits;
    if matched.Some? {
      var usedTpm := Parse(matched.value.tpm);
      var usedRpd := Parse(matched.value.rpd);
      if out.limitTokensMinute > 0 {
        var remTpm := out.limitTokensMinute - usedTpm;
        if remTpm < 0 {
          remTpm := 0;
        }
        out := out.(remainingTokensMinute := remTpm);
      }
      if out.limitRequestsDay > 0 {
        var remRpd := out.limitRequestsDay - usedRpd;
        if remRpd < 0 {
          remRpd := 0;
        }
        out := out.(remainingRequestsDay := remRpd);
      }
    } else {
      out := out.(remainingRequestsDay := out.limitRequestsDay, remainingTokensMinute := out.limitTokensMinute);
    }
  }

  const ListOrganizationUsageQuotasQuery: string := "query ListOrganizationUsageQuotas"
  const ListOrganizationUsageQuery: string := "query ListOrganizationUsage"

  // ---------------------------------------------------------------------------------------
  // Header path

  /** `resp.Header.Get(name)`: the value, or "" when the header is absent. */
  function HeaderGet(headers: map<string, string>, name: string): string
  {
    if name in headers then headers[name] else ""
  }

  /** A limit or remaining header read with `%d`; absent or unreadable leaves 0, and nothing is clamped. */
  function IntHeader(headers: map<string, string>, name: string): (v: int64)
    ensures HeaderGet(headers, name) == "" ==> v == 0
    ensures ScanInt(HeaderGet(headers, name)).Some? ==> v == ScanInt(HeaderGet(headers, name)).value
    ensures ScanInt(HeaderGet(headers, name)).None? ==> v == 0
  {
    match ScanInt(HeaderGet(headers, name))
    case Some(n) => n
    case None => 0
  }

  /** A reset header read with `%f` and truncated to whole seconds; absent or unreadable leaves 0. */
  function ResetHeader(headers: map<string, string>, name: string): (v: int64)
    ensures HeaderGet(headers, name) == "" ==> v == 0
    ensures ScanFloatTrunc(HeaderGet(headers, name)).Some? ==> v == ScanFloatTrunc(HeaderGet(headers, name)).value
    ensures ScanFloatTrunc(HeaderGet(headers, name)).None? ==> v == 0
  {
    match ScanFloatTrunc(HeaderGet(headers, name))
    case Some(n) => n
    case None => 0
  }

  /** The snapshot the header path reads, field by field. */
  function HeaderInfo(headers: map<string, string>): (info: RateLimitInfo)
    ensures headers == map[] ==> info == EmptyInfo
    ensures LimitRequestsDayHeader !in headers ==> info.limitRequestsDay == 0
    ensures LimitTokensMinuteHeader !in headers ==> info.limitTokensMinute == 0
    ensures RemainingRequestsDayHeader !in headers ==> info.remainingRequestsDay == 0
    ensures RemainingTokensMinuteHeader !in headers ==> info.remainingTokensMinute == 0
    ensures ResetRequestsDayHeader !in headers ==> info.resetRequestsDay == 0
    ensures ResetTokensMinuteHeader !in headers ==> info.resetTokensMinute == 0
  {
    RateLimitInfo(
      IntHeader(headers, LimitRequestsDayHeader),
      IntHeader(headers, LimitTokensMinuteHeader),
      IntHeader(headers, RemainingRequestsDayHeader),
      IntHeader(headers, RemainingTokensMinuteHeader),
      ResetHeader(headers, ResetRequestsDayHeader),
      ResetHeader(headers, ResetTokensMinuteHeader))
  }

  /** Some limit or remaining field is positive. */
  predicate AnyPositive(info: RateLimitInfo)
  {
    info.limitRequestsDay > 0 || info.limitTokensMinute > 0 ||
    info.remainingRequestsDay > 0 || info.remainingTokensMinute > 0
  }

  /** The error text of a probe answered without rate-limit counts and a status other than 200. */
  function ProbeStatusError(status: int): (e: string)
    ensures "API request failed with status code: " <= e
  {
    "API request failed with status code: " + FormatInt(status)
  }

  /** The probe's status error names the code, readable back as a decimal number. */
  lemma ProbeStatusErrorCarriesCode(status: int64)
    ensures var e := ProbeStatusError(status);
            var p := |"API request failed with status code: "|;
            p <= |e| && ParseInt(e[p..]) == Some(status)
  {
    var e := ProbeStatusError(status);
    assert e[|"API request failed with status code: "|..] == FormatInt(status);
    FormatParseRoundTrip(status);
  }

  /**
   * The return rule of the header path: with any positive limit or remaining field the
   * snapshot is returned whatever the status; otherwise a non-200 status is an error and a
   * 200 returns the (all-zero-count) snapshot.
   */
  function HeaderOutcome(probe: HeaderReply): (r: Result<RateLimitInfo, string>)
    ensures probe.ProbeFailed? ==> r == Failure(probe.err)
    ensures probe.ProbeResponse? ==>
              (r.Failure? <==> !AnyPositive(HeaderInfo(probe.headers)) && probe.status != GraphqlClient.StatusOK)
    ensures probe.ProbeResponse? && r.Success? ==> r.value == HeaderInfo(probe.headers)
    ensures probe.ProbeResponse? && r.Failure? ==> r.error == ProbeStatusError(probe.status)
  {
    match probe
    case ProbeFailed(e) => Failure(e)
    case ProbeResponse(status, headers) =>
      var info := HeaderInfo(headers);
      if AnyPositive(info) then Success(info)
      else if status != 200 then Failure(ProbeStatusError(status))
      else Success(info)
  }

  /** The probe request: a one-token chat completion for the configured model (default qwen-3-coder-480b). */
  method NewProbeRequest(c: CerebrasClient.Client, model: string) returns (req: ProbeRequest)
    ensures req.url == c.baseURL + "/v1/chat/completions"
    ensures req.model == if model == "" then DefaultProbeModel else model
    ensures c.apiKey != "" ==>
              req.headers == map["Authorization" := CerebrasClient.BearerPrefix + c.apiKey, "Content-Type" := "application/json"]
  {
    var probeModel := model;
    if probeModel == "" {
      probeModel := DefaultProbeModel;
    }
    var headers := c.GetAuthHeaders();
    headers := headers["Content-Type" := "application/json"];
    req := ProbeRequest(c.baseURL + "/v1/chat/completions", probeModel, headers);
  }

  /** One rate-limit header read into a field: set when present, reset to 0 when `%d` fails. */
  method ScanIntField(headers: map<string, string>, name: string) returns (v: int64)
    ensures v == IntHeader(headers, name)
  {
    v := 0;
    var text := HeaderGet(headers, name);
    if text != "" {
      var scanned := ScanInt(text);
      if scanned.Some? {
        v := scanned.value;
      } else {
        v := 0;
      }
    }
  }

  /** One reset header read into a field: set when present and `%f` succeeds, left at 0 otherwise. */
  method ScanResetField(headers: map<string, string>, name: string) returns (v: int64)
    ensures v == ResetHeader(headers, name)
  {
    v := 0;
    var reset := HeaderGet(headers, name);
    if reset != "" {
      var val := ScanFloatTrunc(reset);
      if val.Some? {
        v := val.value;
      }
    }
  }

  /** getMetricsWithAPIKey: `rateLimitInfo` filled header by header, then the return rule. */
  method GetMetricsWithAPIKey(c: CerebrasClient.Client, model: string, probe: HeaderReply)
    returns (req: ProbeRequest, r: Result<RateLimitInfo, string>)
    ensures req.url == c.baseURL + "/v1/chat/completions"
    ensures req.model == if model == "" then DefaultProbeModel else model
    ensures r == HeaderOutcome(probe)
  {
    req := NewProbeRequest(c, model);
    if probe.ProbeFailed? {
      return req, Failure(probe.err);
    }
    var headers := probe.headers;
    var info := RateLimitInfo(0, 0, 0, 0, 0, 0);
    var v := ScanIntField(headers, LimitRequestsDayHeader);
    info := info.(limitRequestsDay := v);
    v := ScanIntField(headers, LimitTokensMinuteHeader);
    info := info.(limitTokensMinute := v);
    v := ScanIntField(headers, RemainingRequestsDayHeader);
    info := info.(remainingRequestsDay := v);
    v := ScanIntField(headers, RemainingTokensMinuteHeader);
    info := info.(remainingTokensMinute := v);
    v := ScanResetField(headers, ResetRequestsDayHeader);
    info := info.(resetRequestsDay := v);
    v := ScanResetField(headers, ResetTokensMinuteHeader);
    info := info.(resetTokensMinute := v);
    if info.limitRequestsDay > 0 || info.limitTokensMinute > 0 || info.remainingRequestsDay > 0 || info.remainingTokensMinute > 0 {
      return req, Success(info);
    }
    if probe.status != 200 {
      return req, Failure(ProbeStatusError(probe.status));
    }
    return req, Success(info);
  }

  // ---------------------------------------------------------------------------------------
  // GetMetrics

  /** The result of `GetMetrics`: the dispatch, then exactly one path. */
  function MetricsOutcome(apiKey: string, sessionToken: string, organization: string, model: string, src: Sources)
    : (r: Result<RateLimitInfo, string>)
    ensures apiKey == "" && sessionToken == "" ==> r == Failure(ErrNoAuth)
    ensures sessionToken != "" && organization != "" ==> r == SessionOutcome(sessionToken, model, src)
    ensures apiKey != "" && (sessionToken == "" || organization == "") ==> r == HeaderOutcome(src.probe)
    ensures apiKey == "" && sessionToken != "" && organization == "" ==> r == Failure(ErrOrganizationRequired)
  {
    match Dispatch(apiKey, sessionToken, organization)
    case QuotaUsagePath => SessionOutcome(sessionToken, model, src)
    case HeaderPath => HeaderOutcome(src.probe)
    case Refused(e) => Failure(e)
  }

  /** GetMetrics for the organisation, with `model` the configured model name. */
  method GetMetrics(c: CerebrasClient.Client, organization: string, model: string, src: Sources)
    returns (r: Result<RateLimitInfo, string>)
    ensures r == MetricsOutcome(c.apiKey, c.sessionToken, organization, model, src)
  {
    if !c.HasAuth() {
      return Failure(ErrNoAuth);
    }
    if c.sessionToken != "" && organization != "" {
      r := GetMetricsWithSessionToken(c, organization, model, src);
      return;
    }
    if c.apiKey != "" {
      var _, headerResult := GetMetricsWithAPIKey(c, model, src.probe);
      return headerResult;
    }
    if c.sessionToken != "" {
      return Failure(ErrOrganizationRequired);
    }
    return Failure(ErrNoValidAuth);
  }

  // ---------------------------------------------------------------------------------------
  // Properties of the two paths

  /** The quota/usage path never looks at the header probe, and the header path never at the GraphQL replies. */
  lemma OnePathOnly(apiKey: string, sessionToken: string, organization: string, model: string, src: Sources, other: Sources)
    ensures Dispatch(apiKey, sessionToken, organization) == QuotaUsagePath && other == src.(probe := other.probe) ==>
              MetricsOutcome(apiKey, sessionToken, organization, model, other) == MetricsOutcome(apiKey, sessionToken, organization, model, src)
    ensures Dispatch(apiKey, sessionToken, organization) == HeaderPath && other.probe == src.probe ==>
              MetricsOutcome(apiKey, sessionToken, organization, model, other) == MetricsOutcome(apiKey, sessionToken, organization, model, src)
  {
  }

  /** An empty quota list gives the all-zero snapshot without an error. */
  lemma EmptyQuotaListIsZero(sessionToken: string, model: string, src: Sources)
    requires GraphqlClient.RequestOutcome(sessionToken, src.quotaReply).Success?
    requires src.quotaRows == Rows([])
    ensures SessionOutcome(sessionToken, model, src) == Success(EmptyInfo)
  {
  }

  /**
   * With a matching usage row each remaining value is max(0, limit - used) for a positive
   * limit and 0 for a zero limit, where `used` is the row's count as read by `Parse`.
   */
  lemma RemainingWithMatch(rows: seq<UsageQuota>, model: string, usage: seq<OrganizationUsage>)
    requires |rows| > 0
    requires MatchedUsage(usage, rows[SelectedIndex(rows, model)]).Some?
    ensures var selected := rows[SelectedIndex(rows, model)];
            var u := MatchedUsage(usage, selected).value;
            var info := SessionMetrics(rows, model, Some(usage));
            info.limitRequestsDay == Parse(selected.requestsPerDay) &&
            info.limitTokensMinute == Parse(selected.tokensPerMinute) &&
            info.remainingRequestsDay == (if info.limitRequestsDay > 0 then Max0(info.limitRequestsDay - Parse(u.rpd)) else 0) &&
            info.remainingTokensMinute == (if info.limitTokensMinute > 0 then Max0(info.limitTokensMinute - Parse(u.tpm)) else 0)
  {
  }

  function Max0(x: int): int { if x < 0 then 0 else x }

  /**
   * Without usage data for the selected quota (the usage request failed, its body did not
   * decode, or no row matched) both remaining values equal their limits.
   */
  lemma FallbackRemainingIsLimit(sessionToken: string, model: string, src: Sources)
    requires GraphqlClient.RequestOutcome(sessionToken, src.quotaReply).Success?
    requires src.quotaRows.Rows? && |src.quotaRows.rows| > 0
    requires var rows := src.quotaRows.rows;
             GraphqlClient.RequestOutcome(sessionToken, src.usageReply).Failure? ||
             src.usageRows.DecodeError? ||
             MatchedUsage(src.usageRows.rows, rows[SelectedIndex(rows, model)]).None?
    ensures SessionOutcome(sessionToken, model, src).Success?
    ensures var info := SessionOutcome(sessionToken, model, src).value;
            info.remainingRequestsDay == info.limitRequestsDay && info.remainingTokensMinute == info.limitTokensMinute
  {
  }

  /** A present count header written in decimal is read back exactly. */
  lemma IntHeaderReadsDecimal(headers: map<string, string>, name: string, n: int64)
    requires n >= 0
    requires name in headers && headers[name] == FormatNat(n)
    ensures IntHeader(headers, name) == n
  {
    ScanIntStopsAtNonDigit(n, []);
    assert FormatInt(n) + [] == FormatNat(n);
  }

  /** A reset time written in decimal: whole seconds "<n>", or "<n>.<digits>". */
  predicate DecimalSeconds(text: string, n: nat)
  {
    var d := FormatNat(n);
    text == d || (|d| < |text| && text[..|d| + 1] == d + "." && AllDigits(text[|d| + 1..]))
  }

  /** A present reset header "<n>" or "<n>.<digits>" is read as `n` seconds. */
  lemma ResetHeaderReadsIntegerPart(headers: map<string, string>, name: string, n: nat)
    requires n <= MaxInt64
    requires name in headers && DecimalSeconds(headers[name], n)
    ensures ResetHeader(headers, name) == n
  {
    var text, d := headers[name], FormatNat(n);
    if text == d {
      assert text == d + [];
      ScanFloatTruncReadsInteger(n, []);
    } else {
      var frac := text[|d| + 1..];
      assert text == text[..|d| + 1] + frac;
      ScanFloatTruncKeepsIntegerPart(n, frac);
    }
  }

  /**
   * Headers that carry decimal counts and decimal reset times are read field by field;
   * when some count is positive the snapshot is returned whatever the status.
   */
  lemma DecimalHeadersRead(h: map<string, string>, status: int, limitRpd: int64, limitTpm: int64,
                           remainingRpd: int64, remainingTpm: int64, resetRpd: nat, resetTpm: nat)
    requires limitRpd >= 0 && limitTpm >= 0 && remainingRpd >= 0 && remainingTpm >= 0
    requires resetRpd <= MaxInt64 && resetTpm <= MaxInt64
    requires LimitRequestsDayHeader in h && h[LimitRequestsDayHeader] == FormatNat(limitRpd)
    requires LimitTokensMinuteHeader in h && h[LimitTokensMinuteHeader] == FormatNat(limitTpm)
    requires RemainingRequestsDayHeader in h && h[RemainingRequestsDayHeader] == FormatNat(remainingRpd)
    requires RemainingTokensMinuteHeader in h && h[RemainingTokensMinuteHeader] == FormatNat(remainingTpm)
    requires ResetRequestsDayHeader in h && DecimalSeconds(h[ResetRequestsDayHeader], resetRpd)
    requires ResetTokensMinuteHeader in h && DecimalSeconds(h[ResetTokensMinuteHeader], resetTpm)
    requires limitRpd > 0 || limitTpm > 0 || remainingRpd > 0 || remainingTpm > 0
    ensures HeaderOutcome(ProbeResponse(status, h)) ==
              Success(RateLimitInfo(limitRpd, limitTpm, remainingRpd, remainingTpm, resetRpd, resetTpm))
  {
    IntHeaderReadsDecimal(h, LimitRequestsDayHeader, limitRpd);
    IntHeaderReadsDecimal(h, LimitTokensMinuteHeader, limitTpm);
    IntHeaderReadsDecimal(h, RemainingRequestsDayHeader, remainingRpd);
    IntHeaderReadsDecimal(h, RemainingTokensMinuteHeader, remainingTpm);
    ResetHeaderReadsIntegerPart(h, ResetRequestsDayHeader, resetRpd);
    ResetHeaderReadsIntegerPart(h, ResetTokensMinuteHeader, resetTpm);
  }

  lemma Decimal62341()
    ensures FormatNat(62341) == "62341"
  {
    assert FormatNat(6) == "6";
    assert FormatNat(62) == "62";
    assert FormatNat(623) == "623";
    assert FormatNat(6234) == "6234";
  }

  lemma Decimal30()
    ensures FormatNat(30) == "30"
  {
    assert FormatNat(3) == "3";
  }

  /** The reset headers of the rate-limit parsing test: "62341.5" is 62341 seconds and "30.2" is 30. */
  lemma ResetTruncationExample(h: map<string, string>)
    requires ResetRequestsDayHeader in h && h[ResetRequestsDayHeader] == "62341.5"
    requires ResetTokensMinuteHeader in h && h[ResetTokensMinuteHeader] == "30.2"
    ensures ResetHeader(h, ResetRequestsDayHeader) == 62341
    ensures ResetHeader(h, ResetTokensMinuteHeader) == 30
  {
    TestResetTexts();
    ResetHeaderReadsIntegerPart(h, ResetRequestsDayHeader, 62341);
    ResetHeaderReadsIntegerPart(h, ResetTokensMinuteHeader, 30);
  }

  lemma TestResetTexts()
    ensures DecimalSeconds("62341.5", 62341) && DecimalSeconds("30.2", 30)
  {
    Decimal62341();
    assert "62341.5"[..6] == "62341." && "62341.5"[6..] == "5";
    Decimal30();
    assert "30.2"[..3] == "30." && "30.2"[3..] == "2";
  }

  lemma Decimal28800()
    ensures FormatNat(28800) == "28800"
  {
    assert FormatNat(2) == "2";
    assert FormatNat(28) == "28";
    assert FormatNat(288) == "288";
    assert FormatNat(2880) == "2880";
  }

  lemma Decimal275000()
    ensures FormatNat(275000) == "275000"
  {
    assert FormatNat(2) == "2";
    assert FormatNat(27) == "27";
    assert FormatNat(275) == "275";
    assert FormatNat(2750) == "2750";
    assert FormatNat(27500) == "27500";
  }

  lemma Decimal27593()
    ensures FormatNat(27593) == "27593"
  {
    assert FormatNat(2) == "2";
    assert FormatNat(27) == "27";
    assert FormatNat(275) == "275";
    assert FormatNat(2759) == "2759";
  }

  /**
   * The probe reply of the API-key test: whole-number headers, reset times included, are
   * read exactly and returned with status 200.
   */
  lemma WholeNumberHeadersExample(h: map<string, string>)
    requires LimitRequestsDayHeader in h && h[LimitRequestsDayHeader] == "28800"
    requires LimitTokensMinuteHeader in h && h[LimitTokensMinuteHeader] == "275000"
    requires RemainingRequestsDayHeader in h && h[RemainingRequestsDayHeader] == "27593"
    requires RemainingTokensMinuteHeader in h && h[RemainingTokensMinuteHeader] == "275000"
    requires ResetRequestsDayHeader in h && h[ResetRequestsDayHeader] == "62341"
    requires ResetTokensMinuteHeader in h && h[ResetTokensMinuteHeader] == "30"
    ensures HeaderOutcome(ProbeResponse(200, h)) == Success(RateLimitInfo(28800, 275000, 27593, 275000, 62341, 30))
  {
    Decimal28800();
    Decimal275000();
    Decimal27593();
    Decimal62341();
    Decimal30();
    DecimalHeadersRead(h, 200, 28800, 275000, 27593, 275000, 62341, 30);
  }

  /** No rate-limit headers: an all-zero snapshot on status 200, an error on any other status. */
  lemma NoHeadersExample(status: int)
    ensures status == 200 ==> HeaderOutcome(ProbeResponse(status, map[])) == Success(EmptyInfo)
    ensures status != 200 ==> HeaderOutcome(ProbeResponse(status, map[])) == Failure(ProbeStatusError(status))
  {
  }
}
