# Cerebras code monitor — a Dafny model of its core

The Cerebras code monitor is a terminal tool that shows how much of a Cerebras account's
inference quota is used. Its core is small:

- **Client and authentication.** A client holds an API key and/or a browser session token.
  The session token is read from the environment first, then from the configuration.
- **Two GraphQL transports.** Both add authentication headers and turn a non-200 status into an error.
- **`GetMetrics`.** It picks exactly one data path:
  - With a session token and an organisation, it takes the *quota/usage path*. That path makes two GraphQL requests: the organisation's quotas, then its current usage. The remaining counts are computed from the quotas and usage.
  - Otherwise, with an API key, it takes the *header path*. That path sends a one-token chat completion and reads the `X-Ratelimit-*` response headers.
- **The dashboard.** A Bubble Tea model with four tabs. It refreshes on a tick and draws progress gauges.
- **The organisation picker.** A Bubble Tea list with a cursor.

The model follows the Go code file by file:

| File | Go source | What it holds |
|---|---|---|
| `graphql_client.dfy` | `internal/cerebras/graphql/client.go` | The session-token GraphQL client, as a class. |
| `cerebras_client.dfy` | `internal/cerebras/client.go` | The main client, as a class. Its constructor resolves credentials from environment and configuration maps. It also builds the GraphQL request. |
| `metrics.dfy` | `internal/cerebras/metrics.go` | See below. |
| `dashboard.dfy` | `internal/tui/dashboard_model.go` | See below. |
| `organization_picker.dfy` | `internal/tui/organization_model.go` | A class. `Update` moves the cursor in place. `View` builds the screen in a loop. |

`metrics.dfy` holds:
- the dispatch between the two paths;
- the quota selection and usage matching loops, each proved equal to a declarative specification function;
- the `parse` helper;
- the remaining-count rules;
- the header reading;
- the header path's return rule.

`dashboard.dfy` holds:
- the dashboard state as a datatype (Go uses value receivers), with a pure `Update` transition;
- runs of messages;
- the rendering decisions: error panel, loading line, overview gauges, usage table, reset-time formatting and status colour.

Supporting modules:

| File | What it holds |
|---|---|
| `wrappers.dfy` | `Option` and `Result`. |
| `tea.dfy` | The Bubble Tea commands the models emit. |
| `go_num.dfy` | int64 range, wrap-around, truncation of reals, Go's truncated `%`. |
| `go_fmt.dfy` | `strconv.ParseInt`; `fmt.Sscanf` with `%d` and with `%f` then `int64(...)`; `%d` formatting. Round-trip lemmas for these. |

Network replies are inputs, not effects:
- a GraphQL reply is a status and body, or a transport error;
- decoded JSON rows arrive as `Rows(...)` or `DecodeError(...)`;
- the probe reply is a status and a header map.

The environment and the configuration file are maps passed to the constructors.

The model follows the code in these respects:
- `GetMetrics` takes exactly one path. The two sources are never merged.
- Nothing prevents overlapping fetches. Every tick and every `r` fetches again.
- Usage rows match any region only when the selected quota's region is empty.
- On the Dashboard tab a stored error replaces the whole overview.
- A zero limit shows 0 % rather than "unknown".

## Model

| member | source | states |
|---|---|---|
| GoNum.Wrap64 | internal/tui/dashboard_model.go:223 | int64 subtraction: exact when in range, and always congruent to the true value modulo 2^64 |
| GoNum.TruncToInt | internal/tui/dashboard_model.go:382 | `int(f)` drops the fraction toward zero: within one of x, never above a non-negative x and never below a negative one |
| GoNum.GoRem | internal/tui/dashboard_model.go:85 | Go's `%` truncates toward zero: the remainder has the dividend's sign, is smaller than the divisor in magnitude, and differs from the dividend by a multiple of the divisor |
| GoFmt.FormatNat | internal/tui/dashboard_model.go:415 | `%d` of a non-negative count: non-empty digits without leading zeros whose value is the count |
| GoFmt.FormatInt | internal/tui/dashboard_model.go:415 | `%d` of any integer: a minus sign exactly for negatives, then the magnitude's digits |
| GoFmt.ParseInt | internal/cerebras/metrics.go:100-113 | `strconv.ParseInt(s, 10, 64)`: the empty string fails; a success is all digits with its decimal value, or a sign and digits whose value carries that sign |
| GoFmt.FormatParseRoundTrip | internal/cerebras/metrics.go:105 | `strconv.ParseInt` reads back every int64 that `%d` writes |
| GoFmt.DigitRun | internal/cerebras/metrics.go:254-256 | the digit run `%d` scans is all digits and is stopped by a non-digit |
| GoFmt.DigitRunOfDigits | internal/cerebras/metrics.go:254-256 | a digit string followed by a non-digit is scanned exactly to its end |
| GoFmt.ScanIntStopsAtNonDigit | internal/cerebras/metrics.go:254-256 | `Sscanf("%d")` of a decimal count followed by anything not a digit yields that count |
| GoFmt.ScanInt | internal/cerebras/metrics.go:253-276 | `Sscanf("%d")` succeeds only on text starting with a digit or a sign; the value is negative only after a minus sign |
| GoFmt.MantissaRun | internal/cerebras/metrics.go:278-280 | the float scanner's digit run holds only digits and underscores and stops at anything else |
| GoFmt.MantissaRunOfDigits | internal/cerebras/metrics.go:278-280 | a run of digits followed by a non-digit is scanned exactly to its end |
| GoFmt.ScanFloatTrunc | internal/cerebras/metrics.go:278-290 | `Sscanf("%f")` then `int64(...)` succeeds only on text starting with a digit, a sign or a point; the value is negative only after a minus sign; underscores count only between two digits |
| GoFmt.ScanFloatTruncKeepsIntegerPart | internal/cerebras/metrics.go:278-280 | `Sscanf("%f")` then `int64(...)` of "<n>.<digits>" yields n: the fraction is truncated |
| GoFmt.ScanFloatTruncReadsInteger | internal/cerebras/metrics.go:278-290 | a reset header "<n>" with no point reads as n, whatever follows that cannot continue a float token |
| GoFmt.StripUnderscores | internal/cerebras/metrics.go:278-280 | dropping the underscores of a run of digits and underscores leaves only digits and changes an all-digit run not at all |
| GoFmt.ScanFloatTruncOfPointed | internal/cerebras/metrics.go:278-290 | "<int>.<frac>" made of digits and underscores, each underscore between two digits, reads as the integer part with the underscores dropped |
| GoFmt.UnderscoreBetweenDigitsSkipped | internal/cerebras/metrics.go:278-290 | "1_000.5" reads as 1000, as Go's float scanner and ParseFloat read it |
| GoFmt.AdjacentUnderscoresRefused | internal/cerebras/metrics.go:278-290 | "1__000" does not read, since an underscore must stand between two digits |
| GraphqlClient.BuildRequestBody | internal/cerebras/graphql/client.go:61-68 | the JSON body holds query and variables, and operationName exactly when it is non-empty |
| GraphqlClient.RequestOutcome | internal/cerebras/graphql/client.go:55-122 | no token is the fixed error; with a token a transport error passes through unchanged, and a reply succeeds iff its status is 200, with its body, and otherwise fails with StatusError of its status and body |
| GraphqlClient.StatusError | internal/cerebras/graphql/client.go:117-119 | the non-200 error text starts with the fixed message and ends with the response body |
| GraphqlClient.CheckStatus | internal/cerebras/graphql/client.go:117-121 | success iff status 200, returning the body; otherwise the status error |
| GraphqlClient.StatusErrorCarriesCodeAndBody | internal/cerebras/graphql/client.go:117-121 | the status error names the status code and carries the body verbatim |
| GraphqlClient.Client.constructor | internal/cerebras/graphql/client.go:19-25 | the client keeps the token and targets the default GraphQL URL |
| GraphqlClient.Client.HasAuth | internal/cerebras/graphql/client.go:27-30 | true iff a session token is set |
| GraphqlClient.Client.GetAuthHeaders | internal/cerebras/graphql/client.go:38-47 | HasAuth iff a header is produced; then exactly the session cookie and never an Authorization header |
| GraphqlClient.Client.MakeRequestWithOperationName | internal/cerebras/graphql/client.go:55-122 | refuses without a token; otherwise a JSON POST to the client URL with the cookie and the body shape, and the outcome fixed by the reply |
| GraphqlClient.Client.MakeRequest | internal/cerebras/graphql/client.go:50-52 | no request without a token; otherwise a POST to the client's URL with exactly the session cookie and JSON content type headers and a body of exactly the query and variables (no operationName); the outcome is RequestOutcome |
| CerebrasClient.Resolve | internal/cerebras/client.go:24-48 | a credential comes from the environment when set there, else from the configuration |
| CerebrasClient.Client.constructor | internal/cerebras/client.go:24-48 | API key and session token are each environment-first, then configuration; the fixed base and GraphQL URLs |
| CerebrasClient.Client.HasAuth | internal/cerebras/client.go:50-53 | true iff an API key or a session token is set |
| CerebrasClient.Client.GetAuthHeaders | internal/cerebras/client.go:66-77 | the API key wins as a Bearer header; a token alone gives the cookie; no credential (not HasAuth) gives no header |
| CerebrasClient.RequestHeaders | internal/cerebras/client.go:66-77 | a GraphQL request's headers: the JSON content type plus the Bearer header when an API key is set, else the session cookie, never both |
| CerebrasClient.Client.MakeGraphQLRequestWithOperationName | internal/cerebras/client.go:90-192 | refuses without a session token; otherwise a JSON POST to the GraphQL URL; with an API key it carries Bearer and no cookie; the outcome is fixed by the reply's status |
| CerebrasClient.Client.MakeGraphQLRequest | internal/cerebras/client.go:80-87 | no request without a session token; otherwise a POST to the GraphQL URL with exactly RequestHeaders (content type and one credential) and a body of exactly the query and variables (no operationName); the outcome is RequestOutcome (the debug variant differs only by printing) |
| Metrics.Dispatch | internal/cerebras/metrics.go:14-36 | each of the four outcomes exactly characterised by which credentials and organisation are present; the final fallback error is unreachable |
| Metrics.Parse | internal/cerebras/metrics.go:100-113 | never negative; a positive result is what ParseInt read; any non-negative ParseInt value is kept |
| Metrics.ParseCountRoundTrip | internal/cerebras/metrics.go:100-113 | every non-negative count written in decimal is parsed back exactly |
| Metrics.ParseNegativeIsZero | internal/cerebras/metrics.go:109-111 | the "-1" unlimited sentinel and every negative count read as 0 |
| Metrics.FirstIndex | internal/cerebras/metrics.go:92-97 | the index found satisfies the predicate and none before it does; None iff no element does |
| Metrics.SelectedIndex | internal/cerebras/metrics.go:88-98 | row 0 without a model or without a row for it; otherwise the first row for the model |
| Metrics.SelectQuota | internal/cerebras/metrics.go:88-98 | the loop with break picks exactly the row SelectedIndex names |
| Metrics.MatchedUsage | internal/cerebras/metrics.go:147-157 | the first usage row with the quota's model and (unless the quota region is empty) its region; None iff there is none |
| Metrics.MatchUsage | internal/cerebras/metrics.go:147-157 | the matching loop returns exactly MatchedUsage |
| Metrics.RemainingAfter | internal/cerebras/metrics.go:164-177 | remaining is within [0, limit]: limit − used when that is in range, 0 when used exceeds the limit or the limit is 0 |
| Metrics.WithRemaining | internal/cerebras/metrics.go:159-192 | only the remaining counts change; each lies in [0, its limit]; with no matching usage row they equal the limits |
| Metrics.UsageData | internal/cerebras/metrics.go:139-146 | the usage rows exist iff the usage request succeeded and its body decoded; no session token gives none |
| Metrics.SessionMetrics | internal/cerebras/metrics.go:84-192 | no quota rows give the all-zero snapshot; otherwise both limits are the parsed counts of the selected quota row; resets are always 0; each remaining count lies between 0 and its limit |
| Metrics.FillRemaining | internal/cerebras/metrics.go:159-192 | the field-by-field if-blocks give exactly WithRemaining |
| Metrics.GetMetricsWithSessionToken | internal/cerebras/metrics.go:39-195 | the two requests and the field-by-field fill give exactly SessionOutcome |
| Metrics.SessionOutcome | internal/cerebras/metrics.go:39-195 | no session token is the fixed error; success iff the quota request succeeded and its body decoded, whatever happened to the usage request; a decode failure carries the parse-error prefix; a success is SessionMetrics of the quota rows and UsageData |
| Metrics.EmptyQuotaListIsZero | internal/cerebras/metrics.go:83-86 | an empty quota list yields the all-zero snapshot and no error |
| Metrics.RemainingWithMatch | internal/cerebras/metrics.go:159-177 | with a matching usage row the limits come from the selected quota and remaining is max(0, limit − used) for a positive limit, 0 otherwise |
| Metrics.FallbackRemainingIsLimit | internal/cerebras/metrics.go:178-192 | a failed usage request, an undecodable usage body or no matching row all give remaining equal to the limits |
| Metrics.IntHeader | internal/cerebras/metrics.go:253-276 | an absent or unreadable count header is 0; otherwise the value `%d` scans, unclamped |
| Metrics.ResetHeader | internal/cerebras/metrics.go:278-290 | an absent or unreadable reset header is 0; otherwise the scanned float truncated to whole seconds |
| Metrics.HeaderInfo | internal/cerebras/metrics.go:253-290 | each of the six fields is 0 when its header is absent; no headers at all give the all-zero snapshot |
| Metrics.HeaderOutcome | internal/cerebras/metrics.go:292-302 | a transport error is returned; an error iff no count is positive and the status is not 200; otherwise the snapshot read from the headers |
| Metrics.ProbeStatusError | internal/cerebras/metrics.go:297-300 | the probe's status error starts with the fixed message |
| Metrics.ProbeStatusErrorCarriesCode | internal/cerebras/metrics.go:297-300 | the status code in the probe's error text reads back as that code |
| Metrics.NewProbeRequest | internal/cerebras/metrics.go:198-227 | the probe goes to /v1/chat/completions on the base URL for the configured model or qwen-3-coder-480b; with an API key its headers are exactly the Bearer header and the JSON content type |
| Metrics.ScanIntField | internal/cerebras/metrics.go:253-257 | reading one count header field by field agrees with IntHeader |
| Metrics.ScanResetField | internal/cerebras/metrics.go:278-290 | reading one reset header field by field agrees with ResetHeader |
| Metrics.GetMetricsWithAPIKey | internal/cerebras/metrics.go:198-303 | the probe request's URL and model, and the header-by-header fill giving exactly HeaderOutcome |
| Metrics.MetricsOutcome | internal/cerebras/metrics.go:14-36 | no credential is the no-auth error; a session token with an organisation takes the quota/usage path even when an API key is set; otherwise an API key takes the header path; a token alone is the organisation-required error |
| Metrics.GetMetrics | internal/cerebras/metrics.go:14-36 | the dispatch followed by exactly one path gives MetricsOutcome |
| Metrics.OnePathOnly | internal/cerebras/metrics.go:20-28 | the quota/usage path ignores the probe and the header path ignores the GraphQL replies: the sources are never merged |
| Metrics.IntHeaderReadsDecimal | internal/cerebras/metrics.go:253-276 | a decimal count header is read back exactly |
| Metrics.ResetHeaderReadsIntegerPart | internal/cerebras/metrics.go:278-290 | a reset header "<n>" or "<n>.<digits>" is read as n seconds |
| Metrics.DecimalHeadersRead | internal/cerebras/metrics.go:253-302 | decimal count headers and reset headers in either decimal form ("<n>" or "<n>.<digits>") are read field by field and returned whatever the status when some count is positive |
| Metrics.Decimal62341 | internal/cerebras/metrics_test.go:238-262 | the decimal rendering of the reset value used by the header parsing test |
| Metrics.ResetTruncationExample | internal/cerebras/metrics_test.go:238-262 | the test's reset headers "62341.5" and "30.2" are read as 62341 and 30 seconds |
| Metrics.WholeNumberHeadersExample | internal/cerebras/metrics_test.go:129-183 | the API-key test's probe headers, whole-number reset times included, give exactly limits 28800 and 275000, remaining 27593 and 275000, resets 62341 and 30, on status 200 |
| Metrics.NoHeadersExample | internal/cerebras/metrics_test.go:187-236 | no rate-limit headers: the all-zero snapshot on 200, the status error on anything else |
| Dashboard.NewDashboardModel | internal/tui/dashboard_model.go:30-39 | four tabs with the first active, nothing fetched, no error, no size, the given settings; the model is valid |
| Dashboard.Init | internal/tui/dashboard_model.go:42-50 | start-up fetches at once and arms the tick |
| Dashboard.Update | internal/tui/dashboard_model.go:77-112 | settings never change; Quit iff q/ctrl+c, Fetch iff r, fetch-and-tick iff a tick; quitting is sticky; snapshot, error and size replaced only by their messages; anything else changes nothing |
| Dashboard.KeyUpdate | internal/tui/dashboard_model.go:79-90 | the key branch: only quitting and the active tab can change |
| Dashboard.UpdateMovesTabOnlyOnTab | internal/tui/dashboard_model.go:84-86 | every message keeps the model valid; tab advances the active tab by one modulo the tab count, nothing else moves it |
| Dashboard.NextTabInRange | internal/tui/dashboard_model.go:85 | in a valid model the int increment and Go `%` neither overflow nor go negative |
| Dashboard.Run | internal/tui/dashboard_model.go:77-112 | a run of messages keeps the model valid and emits one command per message |
| Dashboard.TabCycle | internal/tui/dashboard_model.go:84-86 | k tab presses move the active tab k places around the list |
| Dashboard.TabsWrapAround | internal/tui/dashboard_model.go:84-86 | as many presses as tabs return to the starting tab |
| Dashboard.QuittingIsFinal | internal/tui/dashboard_model.go:81-83 | once quitting, every later message keeps quitting and the view is the goodbye line |
| Dashboard.EveryRefreshFetches | internal/tui/dashboard_model.go:87-98 | a command fetches iff its message was a tick or r, whatever the state: no in-flight guard |
| Dashboard.ErrorsAndSnapshotsAreIndependent | internal/tui/dashboard_model.go:99-104 | without a metrics message the snapshot is kept; without an error message the error is kept |
| Dashboard.StatusColor | internal/tui/dashboard_model.go:395-406 | red iff above 90 %, orange iff in (75, 90], yellow iff in (50, 75], green iff at most 50 % |
| Dashboard.StatusColorMonotone | internal/tui/dashboard_model.go:395-406 | a higher percentage never gets a milder colour |
| Dashboard.Usage | internal/tui/dashboard_model.go:221-230 | zero for a non-positive limit; otherwise used = limit − remaining and the percentage is used's share of the limit times 100 |
| Dashboard.UsagePercentInRange | internal/tui/dashboard_model.go:221-230 | a remaining count within [0, limit] gives a used count within [0, limit] and a percentage within [0, 100] |
| Dashboard.ProgressSplit | internal/tui/dashboard_model.go:381-392 | filled + empty is the width, and for a non-negative scaled value filled is its truncation |
| Dashboard.ClampedProgressSplit | internal/tui/dashboard_model.go:381-392 | both counts are in [0, width] and sum to width; equal to createProgressBar's split whenever that split is in range; empty when it would fill no cell or fewer, full when it would fill the width or more |
| Dashboard.ProgressSplitBounds | internal/tui/dashboard_model.go:381-383 | for the 30-cell bar, a percentage in [0, 100] fills 0 to 30 cells, 100 % or more fills at least 30, 0 % or less fills none or a negative count |
| Dashboard.TruncWithin | internal/tui/dashboard_model.go:382 | the `int(...)` truncation of a value in [0, width] stays in [0, width]; at or above width it is at least width; at or below 0 it is at most 0 |
| Dashboard.FormatResetTime | internal/tui/dashboard_model.go:409-426 | "Unknown" iff no positive time; "<s>s" under a minute; "<s/60>m" under an hour; "<s/3600>h<(s mod 3600)/60>m" from an hour on |
| Dashboard.FormatIntInjective | internal/tui/dashboard_model.go:409-426 | different numbers never render the same |
| Dashboard.SplitAtSeparator | internal/tui/dashboard_model.go:425 | "<digits>h<rest>" determines its digits and its rest |
| Dashboard.HoursNeverInMinutesForm | internal/tui/dashboard_model.go:419-425 | the hours form is never confused with the minutes form |
| Dashboard.ResetSecondsReadBack | internal/tui/dashboard_model.go:414-416 | a displayed "<n>s" means the reset time is exactly n seconds |
| Dashboard.HoursFormNeedsAnHour | internal/tui/dashboard_model.go:419-425 | a reset time displayed in the "<h>h<m>m" form is at least 3600 seconds |
| Dashboard.ResetHoursMinutesReadBack | internal/tui/dashboard_model.go:419-425 | a displayed "<h>h<m>m" means at least one hour, m below 60, and the reset time rounded down to the minute is h hours m minutes |
| Dashboard.MakeGauge | internal/tui/dashboard_model.go:221-243 | each gauge has the used count and percentage of Usage, a bar within the 30-cell width, and the colour of its percentage |
| Dashboard.RenderDashboard | internal/tui/dashboard_model.go:207-310 | an error replaces everything; without a snapshot a loading line; otherwise the overview whose gauges are MakeGauge of the snapshot's limits and remaining counts, with those remaining counts, an hours/minutes daily countdown that brackets the reset seconds to the minute, the minute countdown in seconds, and "unknown" exactly for a non-positive reset |
| Dashboard.RenderUsage | internal/tui/dashboard_model.go:313-349 | a loading line without a snapshot; otherwise the table of used counts as Usage computes them, the snapshot's two limits, and both reset times formatted by FormatResetTime |
| Dashboard.TabContent | internal/tui/dashboard_model.go:171-183 | each named tab shows its own content; unknown content exactly for a tab name outside the four; the error panel appears only on the Dashboard tab |
| Dashboard.View | internal/tui/dashboard_model.go:115-204 | goodbye line once quitting; the placeholder until both dimensions are known; otherwise the frame with the tabs, the active tab and that tab's content |
| Dashboard.QuitKeyShowsGoodbye | internal/tui/dashboard_model.go:81-83 | after q or ctrl+c the view is the goodbye line |
| Dashboard.ErrorHidesOverview | internal/tui/dashboard_model.go:210-214 | on the Dashboard tab a stored error is what is shown, even with a snapshot stored |
| Dashboard.QuotaSnapshotGaugesInRange | internal/cerebras/metrics.go:159-192 | every quota/usage snapshot draws percentages in [0, 100], where the clamped bar equals createProgressBar's |
| Dashboard.HeaderSnapshotCounts | internal/cerebras/metrics.go:253-302 | the probe reply with daily limit header 100 and remaining header 200 returns a snapshot holding exactly those two counts |
| Dashboard.ProgressSplitNegativeForHeaderSnapshot | internal/tui/dashboard_model.go:381-392 | a header snapshot with limit 100 and 200 remaining is returned, shows −100 %, and makes createProgressBar ask for −30 filled cells |
| Dashboard.ClampedSplitForHeaderSnapshot | internal/tui/dashboard_model.go:381-392 | the clamped split draws that snapshot as an empty 30-cell bar |
| OrganizationPicker.ListLines | internal/tui/organization_model.go:87-97 | one line per organisation; a line is marked with ">" iff it is the cursor line; each line ends with "name (ID: id)" |
| OrganizationPicker.UnlinesAppend | internal/tui/organization_model.go:87-97 | joining one more line appends it followed by a newline |
| OrganizationPicker.UnlinesStep | internal/tui/organization_model.go:87-97 | appending the next list line and its newline extends the joined prefix of the list by one line |
| OrganizationPicker.ExactlyOneMarked | internal/tui/organization_model.go:87-97 | in a non-empty list exactly the cursor line is marked |
| OrganizationPicker.OrganizationListModel.constructor | internal/tui/organization_model.go:21-26 | the given organisations, cursor 0, nothing selected |
| OrganizationPicker.OrganizationListModel.Init | internal/tui/organization_model.go:29-32 | no command at start-up: no quit and no fetch |
| OrganizationPicker.OrganizationListModel.Update | internal/tui/organization_model.go:35-76 | up/k and down/j move the cursor one place within the list; enter/space choose the organisation under the cursor and quit; q/ctrl+c quit; the list never changes and the cursor stays valid |
| OrganizationPicker.OrganizationListModel.View | internal/tui/organization_model.go:79-106 | the header, then one line per organisation with the cursor line marked, then the key hints |

## Left out

- HTTP transport, JSON encoding and decoding, and the browser-like headers (Origin, Referer, User-Agent, …) of the GraphQL requests: replies and decoded rows are inputs, and a request records only its verb, URL, authentication and content-type headers and body fields.
- The probe request's JSON body and its reply body: the probe is modelled as its URL, model name and headers.
- GraphQL variables other than strings: both queries pass only the organisation ID.
- Debug printing (`MakeGraphQLRequestWithDebug`, the header dump) and the closing of response bodies: output only.
- `viper` and `os.Getenv`: the environment and the configuration file are maps passed to the constructors, and the configured model is a parameter.
- Saving the chosen organisation to the configuration file on select: the choice is returned by `Update` instead.
- OrganizationPicker.OrganizationListModel.Update requires an organisation under the cursor on enter/space. In Go, indexing an empty list panics, and the command refuses an empty list before the picker starts (internal/cmd/organizations.go:80).
- Styling (lipgloss colours, borders, icons) and exact screen text: `View` yields the structure of the screen, and colours are the four severities.
- The wall-clock reset time (`time.Now().Add(...)`) printed beside each countdown; the countdown itself is modelled.
- Tick scheduling (`tea.Tick`, `tea.Batch`) and the asynchronous fetch: a command records only whether it fetches and whether it re-arms the tick.
- The CLI commands that wrap the core (`internal/cmd`), `ToQuota`/`ToUsageMetrics` conversions and the database migrations: not part of this model.
- Go strings are byte strings; here they are sequences of characters, which agree for the ASCII digits, signs and header names involved.
- Dashboard.Usage: float64 rounding is not modelled; percentages are exact reals.
- Dashboard.RenderUsage: `%.1f` formatting of the used counts is not modelled; the table holds the exact values.
- Dashboard.TabContent: the Quotas and Settings tabs are modelled as their content's structure (the settings they list), not their text.
- GoFmt.ScanFloatTrunc: Go parses the token into a float64 before `int64(...)`, so its rounding can change the integer part ("0.99999999999999999" rounds to 1.0 and reads as 1; integer parts above 2^53 are rounded); the model truncates the exact decimal value.
- GoFmt.ScanFloatTrunc: exponent, hexadecimal, NaN and Inf forms of a reset header are reported as unreadable (so 0), and the behaviour of `int64(...)` on an out-of-range float is treated as unreadable too, rather than Go's implementation-defined result.
- Dashboard.MakeGauge: the view draws the corrected, clamped bar (ClampedProgressSplit). Where createProgressBar as written panics, for a percentage outside [0, 100], the model shows an empty or full bar instead; the as-written split and the input that reaches it are under Findings.
- Dashboard.ProgressSplitBounds: stated for the 30-cell bar, the only width `createProgressBar` is called with; Dashboard.ClampedProgressSplit holds for every width.
- GoFmt.ScanInt and GoFmt.ScanFloatTrunc: leading white space is not skipped; header values arrive trimmed.

## Findings

| source | as written | input that shows it | evidently intended | confidence | as-written member | corrected member |
|---|---|---|---|---|---|---|
| internal/tui/dashboard_model.go:381-392 | `createProgressBar` computes `filled := int(percent / 100 * width)` and calls `strings.Repeat` with `filled` and `width - filled` without bounds; the header path returns limit and remaining counts unclamped, so the percentage can leave [0, 100] | probe headers `X-Ratelimit-Limit-Requests-Day: 100` and `X-Ratelimit-Remaining-Requests-Day: 200` with status 200: −100 %, `filled` = −30, and `strings.Repeat` panics on a negative count | the filled count clamped to [0, width], so the bar is empty below 0 % and full above 100 % | not executed | Dashboard.ProgressSplitNegativeForHeaderSnapshot | Dashboard.ClampedProgressSplit |
