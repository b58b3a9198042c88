/**
 * The dashboard of internal/tui/dashboard_model.go: its state, the `Update` transition over
 * keys, ticks, fetch results and window sizes, and what `View` shows.  `DashboardModel` has
 * value receivers in Go, so `Update` is a function from the old model to the new one.
 * Styling is left out: `View` yields the structure of the screen, not its escape codes.
 */
module Dashboard {
  import opened Wrappers
  import opened GoNum
  import opened GoFmt
  import opened Tea
  import Metrics

  const Tabs: seq<string> := ["Dashboard", "Usage", "Quotas", "Settings"]
  const QuittingText: string := "\nQuitting dashboard...\n"
  const InitializingText: string := "Initializing..."
  /** Width of both progress bars, in cells. */
  const BarWidth: int := 30

  datatype DashboardModel = DashboardModel(
    organization: string,
    modelName: string,
    refreshRate: int64,
    metrics: Option<Metrics.RateLimitInfo>,
    err: Option<string>,
    tabs: seq<string>,
    activeTab: int64,
    width: int64,
    height: int64,
    quitting: bool)

  /** The messages `Update` distinguishes; `OtherMsg` stands for every message type it ignores. */
  datatype Msg =
    | Key(key: string)
    | Tick
    | MetricsMsg(info: Metrics.RateLimitInfo)
    | ErrMsg(err: string)
    | WindowSize(width: int64, height: int64)
    | OtherMsg

  /** The active tab indexes the tab list, and the list's length is a Go `int`. */
  predicate Valid(m: DashboardModel)
  {
    0 < |m.tabs| <= MaxInt64 && 0 <= m.activeTab < |m.tabs|
  }

  /** NewDashboardModel: the four tabs, the first one active, nothing fetched, no error, no size yet. */
  function NewDashboardModel(organization: string, modelName: string, refreshRate: int64): (m: DashboardModel)
    ensures Valid(m)
    ensures m.tabs == ["Dashboard", "Usage", "Quotas", "Settings"] && m.activeTab == 0
    ensures m.metrics == None && m.err == None && !m.quitting
    ensures m.width == 0 && m.height == 0
    ensures m.organization == organization && m.modelName == modelName && m.refreshRate == refreshRate
  {
    DashboardModel(organization, modelName, refreshRate, None, None, Tabs, 0, 0, 0, false)
  }

  /** Init: fetch right away and arm the refresh tick. */
  function Init(m: DashboardModel): (c: Cmd)
    ensures c == FetchAndTick
  {
    FetchAndTick
  }

  /** The fields no message touches. */
  predicate SameSettings(m: DashboardModel, n: DashboardModel)
  {
    n.organization == m.organization && n.modelName == m.modelName &&
    n.refreshRate == m.refreshRate && n.tabs == m.tabs
  }

  /**
   * Update.  q and ctrl+c set `quitting` and quit; tab moves to the next tab, wrapping
   * around; r fetches; a tick fetches and re-arms the tick; a fetch result replaces the
   * stored snapshot, an error message the stored error; a window size sets the size.
   * Anything else changes nothing and emits no command.
   */
  function Update(m: DashboardModel, msg: Msg): (r: (DashboardModel, Cmd))
    requires msg == Key("tab") ==> |m.tabs| > 0
    ensures SameSettings(m, r.0)
    ensures r.1 == Quit <==> msg == Key("q") || msg == Key("ctrl+c")
    ensures r.1 == Fetch <==> msg == Key("r")
    ensures r.1 == FetchAndTick <==> msg == Tick
    ensures r.0.quitting <==> m.quitting || r.1 == Quit
    ensures r.0.metrics == (if msg.MetricsMsg? then Some(msg.info) else m.metrics)
    ensures r.0.err == (if msg.ErrMsg? then Some(msg.err) else m.err)
    ensures (r.0.width, r.0.height) == (if msg.WindowSize? then (msg.width, msg.height) else (m.width, m.height))
    ensures r.1 == NoCmd && !msg.MetricsMsg? && !msg.ErrMsg? && !msg.WindowSize? && msg != Key("tab") ==> r.0 == m
  {
    match msg
    case Key(k) => KeyUpdate(m, k)
    case Tick => (m, FetchAndTick)
    case MetricsMsg(info) => (m.(metrics := Some(info)), NoCmd)
    case ErrMsg(e) => (m.(err := Some(e)), NoCmd)
    case WindowSize(w, h) => (m.(width := w, height := h), NoCmd)
    case OtherMsg => (m, NoCmd)
  }

  /** The key branch of Update: quit, next tab, refresh, or nothing for any other key. */
  function KeyUpdate(m: DashboardModel, k: string): (r: (DashboardModel, Cmd))
    requires k == "tab" ==> |m.tabs| > 0
    ensures r.1 == Quit <==> k == "q" || k == "ctrl+c"
    ensures r.1 == Fetch <==> k == "r"
    ensures r.1 != FetchAndTick
    ensures r.0 == (if r.1 == Quit then m.(quitting := true) else if k == "tab" then r.0 else m)
    ensures r.0 == m.(activeTab := r.0.activeTab, quitting := r.0.quitting)
  {
    if k == "ctrl+c" || k == "q" then (m.(quitting := true), Quit)
    else if k == "tab" then
      NextTabInRange(m.activeTab, |m.tabs|);
      (m.(activeTab := GoRem(Wrap64(m.activeTab as int + 1), |m.tabs|)), NoCmd)
    else if k == "r" then (m, Fetch)
    else (m, NoCmd)
  }

  /**
   * Only tab moves the active tab, one place forward and back to the first after the
   * last, so every message keeps the model valid.
   */
  lemma UpdateMovesTabOnlyOnTab(m: DashboardModel, msg: Msg)
    requires Valid(m)
    ensures Valid(Update(m, msg).0)
    ensures msg == Key("tab") ==> Update(m, msg).0.activeTab == (m.activeTab + 1) % |m.tabs|
    ensures msg != Key("tab") ==> Update(m, msg).0.activeTab == m.activeTab
  {
    if msg == Key("tab") {
      NextTabInRange(m.activeTab, |m.tabs|);
      assert Update(m, msg) == KeyUpdate(m, "tab");
    }
  }

  /** Within a valid model Go's `(activeTab + 1) % len(tabs)` neither overflows nor goes negative. */
  lemma NextTabInRange(a: int64, n: int)
    requires n > 0
    ensures 0 <= a < n <= MaxInt64 ==> GoRem(Wrap64(a as int + 1), n) == (a as int + 1) % n
  {
    if 0 <= a < n <= MaxInt64 {
      assert Wrap64(a as int + 1) == a as int + 1;
    }
  }

  /** The model after a sequence of messages, with the command emitted for each. */
  function Run(m: DashboardModel, msgs: seq<Msg>): (r: (DashboardModel, seq<Cmd>))
    requires Valid(m)
    ensures Valid(r.0) && |r.1| == |msgs|
    decreases |msgs|
  {
    if msgs == [] then (m, [])
    else
      UpdateMovesTabOnlyOnTab(m, msgs[0]);
      var step := Update(m, msgs[0]);
      var rest := Run(step.0, msgs[1..]);
      (rest.0, [step.1] + rest.1)
  }

  /** `k` presses of the tab key: an input builder for TabCycle, not a property of the source. */
  function TabPresses(k: nat): (s: seq<Msg>)
    ensures |s| == k
  {
    if k == 0 then [] else [Key("tab")] + TabPresses(k - 1)
  }

  /** A run starts with the first message's update. */
  lemma RunFirstStep(m: DashboardModel, msgs: seq<Msg>)
    requires Valid(m) && msgs != []
    ensures Valid(Update(m, msgs[0]).0)
    ensures Run(m, msgs).0 == Run(Update(m, msgs[0]).0, msgs[1..]).0
  {
    UpdateMovesTabOnlyOnTab(m, msgs[0]);
  }

  /** Pressing tab k times moves the active tab k places around the list. */
  lemma {:induction false} TabCycle(m: DashboardModel, k: nat)
    requires Valid(m)
    ensures Run(m, TabPresses(k)).0.activeTab == (m.activeTab as int + k) % |m.tabs|
    decreases k
  {
    var n, a := |m.tabs|, m.activeTab as int;
    if k == 0 {
      ModUnique(a, n, 0, a);
      assert Run(m, TabPresses(0)).0 == m;
    } else {
      var presses := TabPresses(k);
      assert presses == [Key("tab")] + TabPresses(k - 1);
      assert presses[0] == Key("tab") && presses[1..] == TabPresses(k - 1);
      RunFirstStep(m, presses);
      UpdateMovesTabOnlyOnTab(m, Key("tab"));
      var next := Update(m, Key("tab")).0;
      assert next.activeTab as int == (a + 1) % n && |next.tabs| == n;
      TabCycle(next, k - 1);
      ModAddOne(a, k - 1, n);
      assert Run(m, presses).0.activeTab as int == (a + k) % n;
    }
  }

  lemma ModAddOne(a: int, j: int, n: int)
    requires n > 0 && 0 <= a && 0 <= j
    ensures ((a + 1) % n + j) % n == (a + 1 + j) % n
  {
    var x := a + 1;
    var q, r := x / n, x % n;
    var q2, r2 := (r + j) / n, (r + j) % n;
    assert x == q * n + r;
    assert r + j == q2 * n + r2;
    assert x + j == (q + q2) * n + r2 by {
      assert q * n + q2 * n == (q + q2) * n;
    }
    ModUnique(x + j, n, q + q2, r2);
  }

  lemma ModUnique(x: int, n: int, q: int, r: int)
    requires n > 0 && 0 <= r < n && x == q * n + r
    ensures x % n == r
  {
    var q0, r0 := x / n, x % n;
    assert x == q0 * n + r0;
    assert (q - q0) * n == r0 - r by {
      assert q * n - q0 * n == (q - q0) * n;
    }
    if q > q0 {
      MulAtLeast(q - q0, n);
    } else if q < q0 {
      MulAtLeast(q0 - q, n);
    }
  }

  lemma MulAtLeast(d: int, n: int)
    requires d >= 1 && n > 0
    ensures d * n >= n
  {
    assert d * n == (d - 1) * n + n;
    assert (d - 1) * n >= 0;
  }


  /** After as many tab presses as there are tabs, the original tab is active again. */
  lemma TabsWrapAround(m: DashboardModel, n: nat)
    requires Valid(m) && n == |m.tabs|
    ensures Run(m, TabPresses(n)).0.activeTab == m.activeTab
  {
    TabCycle(m, n);
    ModFullTurn(m.activeTab as int, n);
  }

  lemma ModFullTurn(a: int, n: int)
    requires 0 <= a < n
    ensures (a + n) % n == a
  {
    ModUnique(a + n, n, 1, a);
  }

  /** Once quitting, the model stays quitting and shows only the goodbye line, whatever arrives. */
  lemma {:induction false} QuittingIsFinal(m: DashboardModel, msgs: seq<Msg>)
    requires Valid(m) && m.quitting
    ensures Run(m, msgs).0.quitting
    ensures View(Run(m, msgs).0) == Text(QuittingText)
    decreases |msgs|
  {
    if msgs != [] {
      QuittingIsFinal(Update(m, msgs[0]).0, msgs[1..]);
    }
  }

  /**
   * Every tick and every r emits a fetch, whatever the state: nothing tracks a fetch in
   * flight, so overlapping fetches are possible.
   */
  lemma {:induction false} EveryRefreshFetches(m: DashboardModel, msgs: seq<Msg>)
    requires Valid(m)
    ensures forall i :: 0 <= i < |msgs| ==>
              (Run(m, msgs).1[i] in {Fetch, FetchAndTick} <==> msgs[i] == Tick || msgs[i] == Key("r"))
    decreases |msgs|
  {
    if msgs != [] {
      var step := Update(m, msgs[0]);
      EveryRefreshFetches(step.0, msgs[1..]);
      var cmds := Run(m, msgs).1;
      assert cmds == [step.1] + Run(step.0, msgs[1..]).1;
      forall i | 0 < i < |msgs|
        ensures cmds[i] in {Fetch, FetchAndTick} <==> msgs[i] == Tick || msgs[i] == Key("r")
      {
        assert cmds[i] == Run(step.0, msgs[1..]).1[i - 1];
        assert msgs[i] == msgs[1..][i - 1];
      }
    }
  }

  /**
   * A failed refresh keeps the last snapshot on screen data, and a later successful one
   * does not clear the stored error.
   */
  lemma {:induction false} ErrorsAndSnapshotsAreIndependent(m: DashboardModel, msgs: seq<Msg>)
    requires Valid(m)
    ensures (forall i :: 0 <= i < |msgs| ==> !msgs[i].MetricsMsg?) ==> Run(m, msgs).0.metrics == m.metrics
    ensures (forall i :: 0 <= i < |msgs| ==> !msgs[i].ErrMsg?) ==> Run(m, msgs).0.err == m.err
    decreases |msgs|
  {
    if msgs != [] {
      ErrorsAndSnapshotsAreIndependent(Update(m, msgs[0]).0, msgs[1..]);
      assert forall i :: 0 <= i < |msgs| - 1 ==> msgs[1..][i] == msgs[i + 1];
    }
  }

  // ---------------------------------------------------------------------------------------
  // Rendering helpers

  datatype Color = Green | Yellow | Orange | Red

  function Severity(c: Color): nat
  {
    match c
    case Green => 0
    case Yellow => 1
    case Orange => 2
    case Red => 3
  }

  /** getStatusColor: red above 90 %, orange above 75 %, yellow above 50 %, green otherwise. */
  function StatusColor(percent: real): (c: Color)
    ensures c == Red <==> percent > 90.0
    ensures c == Orange <==> 75.0 < percent <= 90.0
    ensures c == Yellow <==> 50.0 < percent <= 75.0
    ensures c == Green <==> percent <= 50.0
  {
    if percent > 90.0 then Red
    else if percent > 75.0 then Orange
    else if percent > 50.0 then Yellow
    else Green
  }

  /** A fuller bar never gets a milder colour. */
  lemma StatusColorMonotone(p: real, q: real)
    requires p <= q
    ensures Severity(StatusColor(p)) <= Severity(StatusColor(q))
  {
  }

  /**
   * The used count and the percentage shown for one limit: `limit - remaining` (an int64
   * subtraction) and its share of the limit, both only when the limit is positive.
   */
  function Usage(limit: int64, remaining: int64): (r: (real, real))
    ensures limit <= 0 ==> r == (0.0, 0.0)
    ensures limit > 0 && MinInt64 <= limit - remaining <= MaxInt64 ==>
              r.0 == (limit - remaining) as real && r.1 * (limit as real) == r.0 * 100.0
  {
    if limit > 0 then
      var used := Wrap64(limit as int - remaining as int) as real;
      (used, used / (limit as real) * 100.0)
    else (0.0, 0.0)
  }

  /** A remaining count between 0 and the limit gives a percentage between 0 and 100. */
  lemma UsagePercentInRange(limit: int64, remaining: int64)
    requires 0 <= remaining <= limit
    ensures 0.0 <= Usage(limit, remaining).1 <= 100.0
    ensures 0.0 <= Usage(limit, remaining).0 <= limit as real
  {
    if limit > 0 {
      var used, lim := (limit - remaining) as real, limit as real;
      assert Wrap64(limit as int - remaining as int) == limit - remaining;
      ShareBounds(used, lim);
      assert Usage(limit, remaining) == (used, used / lim * 100.0);
    }
  }

  /** A part of a positive whole is a share between 0 and 1 of it. */
  lemma ShareBounds(part: real, whole: real)
    requires 0.0 <= part <= whole && whole > 0.0
    ensures 0.0 <= part / whole <= 1.0
  {
    var q := part / whole;
    assert q * whole == part;
    ScaleBounds(q, whole);
  }

  lemma ScaleBounds(x: real, y: real)
    requires y > 0.0
    ensures x < 0.0 ==> x * y < 0.0
    ensures x > 1.0 ==> x * y > y
  {
    if x > 1.0 {
      assert x * y == y + (x - 1.0) * y;
    }
  }

  /**
   * createProgressBar's split as written: `int(percent / 100 * width)` filled cells and the
   * rest empty.  Nothing keeps either count in [0, width].
   */
  function ProgressSplit(percent: real, width: int): (r: (int, int))
    ensures r.0 + r.1 == width
    ensures 0.0 <= percent / 100.0 * (width as real) ==> r.0 as real <= percent / 100.0 * (width as real) < r.0 as real + 1.0
  {
    var filled := TruncToInt(percent / 100.0 * (width as real));
    (filled, width - filled)
  }

  /**
   * The split with the filled count kept in [0, width]: the as-written split whenever
   * that is in range, an empty bar when it would fill nothing or less, a full bar when it
   * would fill the width or more.
   */
  function ClampedProgressSplit(percent: real, width: int): (r: (int, int))
    requires width >= 0
    ensures 0 <= r.0 <= width && 0 <= r.1 <= width && r.0 + r.1 == width
    ensures 0 <= ProgressSplit(percent, width).0 <= width ==> r == ProgressSplit(percent, width)
    ensures ProgressSplit(percent, width).0 <= 0 ==> r == (0, width)
    ensures ProgressSplit(percent, width).0 >= width ==> r == (width, 0)
  {
    var filled := ProgressSplit(percent, width).0;
    var clamped := if filled < 0 then 0 else if filled > width then width else filled;
    (clamped, width - clamped)
  }

  /**
   * The 30-cell bar of the overview as written: a percentage in [0, 100] fills between 0
   * and 30 cells, 100 % or more fills at least 30, and 0 % or less at most 0.
   */
  lemma ProgressSplitBounds(percent: real)
    ensures var filled := ProgressSplit(percent, BarWidth).0;
            (0.0 <= percent <= 100.0 ==> 0 <= filled <= BarWidth) &&
            (percent >= 100.0 ==> filled >= BarWidth) &&
            (percent <= 0.0 ==> filled <= 0)
  {
    var x := percent / 100.0 * 30.0;
    assert 0.0 <= percent <= 100.0 ==> 0.0 <= x <= 30.0;
    assert percent >= 100.0 ==> x >= 30.0;
    assert percent <= 0.0 ==> x <= 0.0;
    TruncWithin(x, BarWidth);
  }

  /** Go's `int(x)` keeps a value in [0, width] there, and one beyond either end beyond it. */
  lemma TruncWithin(x: real, width: int)
    requires width >= 0
    ensures 0.0 <= x <= width as real ==> 0 <= TruncToInt(x) <= width
    ensures x >= width as real ==> TruncToInt(x) >= width
    ensures x <= 0.0 ==> TruncToInt(x) <= 0
  {
    var t := TruncToInt(x);
    if x >= 0.0 {
      assert t as real <= x < t as real + 1.0;
    } else {
      assert t as real - 1.0 < x <= t as real;
    }
  }

  /**
   * formatResetTime: "Unknown" for no positive reset time, whole seconds under a minute,
   * whole minutes under an hour, hours and minutes beyond.
   */
  function FormatResetTime(seconds: int64): (s: string)
    ensures 0 < seconds < 60 ==> |s| > 0 && s[|s| - 1] == 's'
    ensures 60 <= seconds ==> |s| > 0 && s[|s| - 1] == 'm'
    ensures 0 < seconds < 60 ==> s == FormatInt(seconds) + "s"
    ensures 60 <= seconds < 3600 ==> s == FormatInt(seconds / 60) + "m"
    ensures seconds >= 3600 ==> s == FormatInt(seconds / 3600) + "h" + FormatInt(seconds % 3600 / 60) + "m"
    ensures s == "Unknown" <==> seconds <= 0
  {
    if seconds <= 0 then "Unknown"
    else if seconds < 60 then FormatInt(seconds) + "s"
    else if seconds < 3600 then FormatInt(seconds / 60) + "m"
    else FormatInt(seconds / 3600) + "h" + FormatInt(seconds % 3600 / 60) + "m"
  }

  /** Decimal renderings of distinct numbers differ. */
  lemma FormatIntInjective(a: int64, b: int64)
    requires FormatInt(a) == FormatInt(b)
    ensures a == b
  {
    FormatParseRoundTrip(a);
    FormatParseRoundTrip(b);
  }

  /** A digit string followed by a separator splits back into the same parts. */
  lemma SplitAtSeparator(a: string, b: string, x: string, y: string, sep: char)
    requires AllDigits(a) && AllDigits(b) && !IsDigit(sep)
    requires a + [sep] + x == b + [sep] + y
    ensures a == b && x == y
  {
    var w := a + [sep] + x;
    assert w == a + ([sep] + x) && w == b + ([sep] + y);
    DigitRunOfDigits(a, [sep] + x);
    DigitRunOfDigits(b, [sep] + y);
    assert a == w[..|a|];
    assert b == w[..|b|];
    assert x == w[|a| + 1..];
    assert y == w[|b| + 1..];
  }

  /** An "<digits>h..." rendering is never a "<digits>m" one. */
  lemma HoursNeverInMinutesForm(a: string, b: string, x: string)
    requires AllDigits(a) && AllDigits(b)
    ensures a + "h" + x != b + "m"
  {
    var w, v := a + "h" + x, b + "m";
    assert w == a + ("h" + x);
    DigitRunOfDigits(a, "h" + x);
    DigitRunOfDigits(b, "m");
    assert w[|a|] == 'h';
    assert v[|b|] == 'm';
  }

  /** A shown seconds count is the exact reset time. */
  lemma ResetSecondsReadBack(seconds: int64, shown: int64)
    requires shown >= 0 && FormatResetTime(seconds) == FormatInt(shown) + "s"
    ensures seconds == shown
  {
    var s := FormatResetTime(seconds);
    assert s[|s| - 1] == 's';
    assert "Unknown"[6] == 'n';
    assert 0 < seconds < 60;
    assert FormatInt(seconds) == s[..|s| - 1];
    assert FormatInt(shown) == s[..|s| - 1];
    FormatIntInjective(seconds, shown);
  }

  /** Shown hours and minutes are the reset time rounded down to the minute. */
  lemma ResetHoursMinutesReadBack(seconds: int64, hours: int64, minutes: int64)
    requires hours >= 0 && minutes >= 0
    requires FormatResetTime(seconds) == FormatInt(hours) + "h" + FormatInt(minutes) + "m"
    ensures 0 <= minutes < 60 && hours > 0
    ensures hours * 3600 + minutes * 60 <= seconds < hours * 3600 + minutes * 60 + 60
  {
    HoursFormNeedsAnHour(seconds, hours, minutes);
    var h, mm := seconds / 3600, seconds % 3600 / 60;
    assert FormatResetTime(seconds) == FormatInt(h) + "h" + FormatInt(mm) + "m";
    assert FormatInt(hours) + "h" + FormatInt(minutes) + "m" == FormatInt(hours) + ['h'] + (FormatInt(minutes) + "m");
    assert FormatInt(h) + "h" + FormatInt(mm) + "m" == FormatInt(h) + ['h'] + (FormatInt(mm) + "m");
    SplitAtSeparator(FormatInt(hours), FormatInt(h), FormatInt(minutes) + "m", FormatInt(mm) + "m", 'h');
    FormatIntInjective(hours, h);
    var x, y := FormatInt(minutes) + "m", FormatInt(mm) + "m";
    assert FormatInt(minutes) == x[..|x| - 1];
    assert FormatInt(mm) == y[..|y| - 1];
    FormatIntInjective(minutes, mm);
  }

  /** Only a reset time of an hour or more is shown in the hours form. */
  lemma HoursFormNeedsAnHour(seconds: int64, hours: int64, minutes: int64)
    requires hours >= 0 && minutes >= 0
    requires FormatResetTime(seconds) == FormatInt(hours) + "h" + FormatInt(minutes) + "m"
    ensures seconds >= 3600
  {
    var s := FormatResetTime(seconds);
    assert s[|s| - 1] == 'm';
    assert "Unknown"[6] == 'n';
    assert seconds >= 60;
    if seconds < 3600 {
      HoursNeverInMinutesForm(FormatInt(hours), FormatInt(seconds / 60), FormatInt(minutes) + "m");
    }
  }

  // ---------------------------------------------------------------------------------------
  // View

  /** One progress gauge of the overview: the used count, its percentage, the bar split and its colour. */
  datatype Gauge = Gauge(used: real, percent: real, limit: int64, filled: int, empty: int, color: Color)

  /** The countdown next to a reset time; the wall-clock time printed beside it is left out. */
  datatype Countdown = ResetUnknown | HoursMinutes(hours: int64, minutes: int64) | Seconds(seconds: int64)

  /** What the content area of the active tab holds. */
  datatype Content =
    | ErrorPanel(message: string)
    | Loading(message: string)
    | Overview(requests: Gauge, tokens: Gauge, remainingRequests: int64, remainingTokens: int64,
               requestsCountdown: Countdown, tokensCountdown: Countdown)
    | UsageTable(requestsUsed: real, requestsLimit: int64, requestsReset: string,
                 tokensUsed: real, tokensLimit: int64, tokensReset: string)
    | QuotasInfo
    | SettingsInfo(refreshRate: int64, organization: string, modelName: string)
    | UnknownTab

  /** The screen: a bare line of text, or the title, tab row, content and status bar. */
  datatype Screen =
    | Text(text: string)
    | Frame(tabs: seq<string>, activeTab: int64, content: Content, organization: string, modelName: string, refreshRate: int64)

  /** The gauge for one limit; the bar uses the clamped split (see `ProgressSplit`). */
  function MakeGauge(limit: int64, remaining: int64): (g: Gauge)
    ensures g.filled + g.empty == BarWidth && 0 <= g.filled <= BarWidth
    ensures g.color == StatusColor(g.percent)
    ensures (g.used, g.percent) == Usage(limit, remaining) && g.limit == limit
  {
    var u := Usage(limit, remaining);
    var bar := ClampedProgressSplit(u.1, BarWidth);
    Gauge(u.0, u.1, limit, bar.0, bar.1, StatusColor(u.1))
  }

  /** renderDashboard: the error when there is one, else a loading line until a snapshot arrives, else the overview. */
  function RenderDashboard(m: DashboardModel): (c: Content)
    ensures m.err.Some? ==> c == ErrorPanel("Error: " + m.err.value)
    ensures m.err.None? && m.metrics.None? ==> c.Loading?
    ensures m.err.None? && m.metrics.Some? ==>
              var info := m.metrics.value;
              c.Overview? &&
              c.requests == MakeGauge(info.limitRequestsDay, info.remainingRequestsDay) &&
              c.tokens == MakeGauge(info.limitTokensMinute, info.remainingTokensMinute) &&
              c.remainingRequests == info.remainingRequestsDay && c.remainingTokens == info.remainingTokensMinute
    ensures m.err.None? && m.metrics.Some? ==>
              var info := m.metrics.value;
              (c.requestsCountdown == ResetUnknown <==> info.resetRequestsDay <= 0) &&
              (c.tokensCountdown == ResetUnknown <==> info.resetTokensMinute <= 0) &&
              !c.requestsCountdown.Seconds? && !c.tokensCountdown.HoursMinutes?
    ensures m.err.None? && m.metrics.Some? && c.requestsCountdown.HoursMinutes? ==>
              var t, h, mm := m.metrics.value.resetRequestsDay, c.requestsCountdown.hours, c.requestsCountdown.minutes;
              0 <= mm < 60 && h * 3600 + mm * 60 <= t < h * 3600 + mm * 60 + 60
    ensures m.err.None? && m.metrics.Some? && c.tokensCountdown.Seconds? ==>
              c.tokensCountdown.seconds == m.metrics.value.resetTokensMinute
  {
    if m.err.Some? then ErrorPanel("Error: " + m.err.value)
    else if m.metrics.None? then Loading("Loading metrics...")
    else
      var info := m.metrics.value;
      Overview(
        MakeGauge(info.limitRequestsDay, info.remainingRequestsDay),
        MakeGauge(info.limitTokensMinute, info.remainingTokensMinute),
        info.remainingRequestsDay, info.remainingTokensMinute,
        if info.resetRequestsDay > 0 then HoursMinutes(info.resetRequestsDay / 3600, info.resetRequestsDay % 3600 / 60) else ResetUnknown,
        if info.resetTokensMinute > 0 then Seconds(info.resetTokensMinute) else ResetUnknown)
  }

  /** renderUsage: used counts, limits and formatted reset times; the stored error is not shown here. */
  function RenderUsage(m: DashboardModel): (c: Content)
    ensures m.metrics.None? ==> c.Loading?
    ensures m.metrics.Some? ==>
              c.UsageTable? &&
              c.requestsUsed == Usage(m.metrics.value.limitRequestsDay, m.metrics.value.remainingRequestsDay).0 &&
              c.tokensUsed == Usage(m.metrics.value.limitTokensMinute, m.metrics.value.remainingTokensMinute).0
    ensures m.metrics.Some? ==>
              c.requestsLimit == m.metrics.value.limitRequestsDay && c.tokensLimit == m.metrics.value.limitTokensMinute &&
              c.requestsReset == FormatResetTime(m.metrics.value.resetRequestsDay) &&
              c.tokensReset == FormatResetTime(m.metrics.value.resetTokensMinute)
  {
    if m.metrics.None? then Loading("Loading usage data...")
    else
      var info := m.metrics.value;
      UsageTable(
        Usage(info.limitRequestsDay, info.remainingRequestsDay).0, info.limitRequestsDay, FormatResetTime(info.resetRequestsDay),
        Usage(info.limitTokensMinute, info.remainingTokensMinute).0, info.limitTokensMinute, FormatResetTime(info.resetTokensMinute))
  }

  /** The content of the active tab, chosen by the tab's name. */
  function TabContent(m: DashboardModel): (c: Content)
    requires 0 <= m.activeTab < |m.tabs|
    ensures var t := m.tabs[m.activeTab];
            (t == "Dashboard" ==> c == RenderDashboard(m)) && (t == "Usage" ==> c == RenderUsage(m)) &&
            (t == "Quotas" ==> c == QuotasInfo) &&
            (t == "Settings" ==> c == SettingsInfo(m.refreshRate, m.organization, m.modelName))
    ensures c == UnknownTab <==> m.tabs[m.activeTab] !in Tabs
    ensures c.ErrorPanel? ==> m.tabs[m.activeTab] == "Dashboard" && m.err.Some?
  {
    match m.tabs[m.activeTab]
    case "Dashboard" => RenderDashboard(m)
    case "Usage" => RenderUsage(m)
    case "Quotas" => QuotasInfo
    case "Settings" => SettingsInfo(m.refreshRate, m.organization, m.modelName)
    case _ => UnknownTab
  }

  /**
   * View: the goodbye line once quitting, a placeholder until the terminal size is known,
   * otherwise the full frame with the active tab's content.
   */
  function View(m: DashboardModel): (s: Screen)
    requires Valid(m)
    ensures m.quitting ==> s == Text(QuittingText)
    ensures !m.quitting && (m.width == 0 || m.height == 0) ==> s == Text(InitializingText)
    ensures s.Frame? <==> !m.quitting && m.width != 0 && m.height != 0
    ensures s.Frame? ==> s.tabs == m.tabs && s.activeTab == m.activeTab && s.content == TabContent(m)
  {
    if m.quitting then Text(QuittingText)
    else if m.width == 0 || m.height == 0 then Text(InitializingText)
    else Frame(m.tabs, m.activeTab, TabContent(m), m.organization, m.modelName, m.refreshRate)
  }

  /** The q key ends the dashboard: the next view is the goodbye line, whatever was on screen. */
  lemma QuitKeyShowsGoodbye(m: DashboardModel)
    requires Valid(m)
    ensures View(Update(m, Key("q")).0) == Text(QuittingText)
    ensures View(Update(m, Key("ctrl+c")).0) == Text(QuittingText)
  {
  }

  /**
   * On the Dashboard tab a stored error replaces the whole overview, even when a snapshot
   * is stored as well.
   */
  lemma ErrorHidesOverview(m: DashboardModel)
    requires Valid(m) && !m.quitting && m.width != 0 && m.height != 0
    requires m.tabs[m.activeTab] == "Dashboard" && m.err.Some?
    ensures View(m).content == ErrorPanel("Error: " + m.err.value)
  {
  }

  /**
   * Every snapshot of the quota/usage path has its remaining counts within the limits, so
   * its percentages lie in [0, 100] and the clamped bar agrees with createProgressBar's.
   */
  lemma QuotaSnapshotGaugesInRange(rows: seq<Metrics.UsageQuota>, model: string, usage: Option<seq<Metrics.OrganizationUsage>>)
    ensures var info := Metrics.SessionMetrics(rows, model, usage);
            var p := Usage(info.limitRequestsDay, info.remainingRequestsDay).1;
            var q := Usage(info.limitTokensMinute, info.remainingTokensMinute).1;
            0.0 <= p <= 100.0 && 0.0 <= q <= 100.0 &&
            MakeGauge(info.limitRequestsDay, info.remainingRequestsDay).filled == ProgressSplit(p, BarWidth).0 &&
            MakeGauge(info.limitTokensMinute, info.remainingTokensMinute).filled == ProgressSplit(q, BarWidth).0
  {
    var info := Metrics.SessionMetrics(rows, model, usage);
    UsagePercentInRange(info.limitRequestsDay, info.remainingRequestsDay);
    UsagePercentInRange(info.limitTokensMinute, info.remainingTokensMinute);
    ProgressSplitBounds(Usage(info.limitRequestsDay, info.remainingRequestsDay).1);
    ProgressSplitBounds(Usage(info.limitTokensMinute, info.remainingTokensMinute).1);
  }

  /**
   * createProgressBar as written gets a negative count when the header path reports more
   * remaining than the limit: a daily limit of 100 with 200 remaining is a snapshot
   * `GetMetrics` returns, gives -100 %, and asks `strings.Repeat` for -30 filled cells.
   */
  lemma ProgressSplitNegativeForHeaderSnapshot(h: map<string, string>)
    requires Metrics.LimitRequestsDayHeader in h && h[Metrics.LimitRequestsDayHeader] == "100"
    requires Metrics.RemainingRequestsDayHeader in h && h[Metrics.RemainingRequestsDayHeader] == "200"
    ensures Metrics.HeaderOutcome(Metrics.ProbeResponse(200, h)).Success?
    ensures var info := Metrics.HeaderOutcome(Metrics.ProbeResponse(200, h)).value;
            var p := Usage(info.limitRequestsDay, info.remainingRequestsDay).1;
            p == -100.0 && ProgressSplit(p, BarWidth).0 == -30 && ProgressSplit(p, BarWidth).0 < 0
  {
    HeaderSnapshotCounts(h);
    var info := Metrics.HeaderOutcome(Metrics.ProbeResponse(200, h)).value;
    assert Usage(100, 200).1 == -100.0;
    assert TruncToInt(-100.0 / 100.0 * 30.0) == -30;
  }

  /** The probe reply of the finding returns a snapshot with daily limit 100 and 200 remaining. */
  lemma HeaderSnapshotCounts(h: map<string, string>)
    requires Metrics.LimitRequestsDayHeader in h && h[Metrics.LimitRequestsDayHeader] == "100"
    requires Metrics.RemainingRequestsDayHeader in h && h[Metrics.RemainingRequestsDayHeader] == "200"
    ensures Metrics.HeaderOutcome(Metrics.ProbeResponse(200, h)).Success?
    ensures var info := Metrics.HeaderOutcome(Metrics.ProbeResponse(200, h)).value;
            info.limitRequestsDay == 100 && info.remainingRequestsDay == 200
  {
    Decimal100And200();
    Metrics.IntHeaderReadsDecimal(h, Metrics.LimitRequestsDayHeader, 100);
    Metrics.IntHeaderReadsDecimal(h, Metrics.RemainingRequestsDayHeader, 200);
  }

  lemma Decimal100And200()
    ensures FormatNat(100) == "100" && FormatNat(200) == "200"
  {
    assert FormatNat(10) == "10" by {
      assert FormatNat(1) == "1";
    }
    assert FormatNat(20) == "20" by {
      assert FormatNat(2) == "2";
    }
  }

  /** With the clamped split the same snapshot draws an empty bar of the full width. */
  lemma ClampedSplitForHeaderSnapshot()
    ensures ClampedProgressSplit(Usage(100, 200).1, BarWidth) == (0, BarWidth)
  {
    assert Usage(100, 200).1 == -100.0;
    ProgressSplitBounds(-100.0);
  }
}
