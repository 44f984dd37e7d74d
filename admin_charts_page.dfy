/** The admin's chart overview: loading the chart list and its statistics
    (only for a login token whose role is admin, and only when the server
    answers its health check), the source filter over the list, and the
    colour and icon of each chart source. */
module AdminChartsPage {
  import opened Common
  import opened ChartController

  /** The stored login token: none, one whose payload cannot be decoded, or
      the decoded payload's `role` (`""` when absent). */
  datatype Token = NoToken | Unreadable | Payload(role: string)

  /** How the chart-list request ended: the list and its statistics, or an
      error with the response status (`None` with no response), the error's
      `code` (`""` when absent) and its `message`. */
  datatype Response = Answered(charts: seq<ChartDoc>, stats: Stats)
                    | Errored(status: Option<int>, code: string, message: string)

  /** What the page shows: the loaded list, or an error message. */
  datatype Page = Loaded(charts: seq<ChartDoc>, stats: Stats) | Error(message: string)

  /** A load: the page and the number of requests sent (health check, then
      chart list). */
  datatype Load = Load(page: Page, requests: nat)

  const MissingToken := "No authentication token found"
  const AccessDenied := "Access denied. Admin privileges required."
  const InvalidToken := "Invalid authentication token"
  const Unreachable := "Cannot connect to server. Please check if backend is running."
  const AuthFailed := "Authentication failed. Please log in again."
  const NotFoundHost := "Server not found. Please check the backend URL configuration."
  const LoadFailedPrefix := "Failed to load chart statistics: "

  /** The `catch` block's choice of message for a failed chart-list
      request. */
  function ErrorMessage(status: Option<int>, code: string, message: string): (m: string)
    ensures status == Some(403) ==> m == AccessDenied
    ensures status == Some(401) ==> m == AuthFailed
    ensures status != Some(403) && status != Some(401) ==>
      m == (if code == "ECONNREFUSED" then Unreachable
            else if code == "ENOTFOUND" then NotFoundHost
            else LoadFailedPrefix + message)
  {
    if status == Some(403) then AccessDenied
    else if status == Some(401) then AuthFailed
    else if code == "ECONNREFUSED" then Unreachable
    else if code == "ENOTFOUND" then NotFoundHost
    else LoadFailedPrefix + message
  }

  /** `fetchChartStats`: the token checks, the health check (`healthy` is
      whether it answered), then the chart-list request. */
  function FetchChartStats(token: Token, healthy: bool, response: Response): (r: Load)
    ensures token.NoToken? ==> r == Load(Error(MissingToken), 0)
    ensures token.Unreadable? ==> r == Load(Error(InvalidToken), 0)
    ensures token.Payload? && token.role != "admin" ==> r == Load(Error(AccessDenied), 0)
    ensures r.requests > 0 <==> token == Payload("admin")
    ensures r.requests == 2 <==> token == Payload("admin") && healthy
    ensures r.page.Loaded? <==> token == Payload("admin") && healthy && response.Answered?
    ensures r.page.Loaded? ==> r.page.charts == response.charts && r.page.stats == response.stats
    ensures token == Payload("admin") && !healthy ==> r.page == Error(Unreachable)
    ensures r.requests == 2 && response.Errored? ==>
      r.page == Error(ErrorMessage(response.status, response.code, response.message))
  {
    match token
    case NoToken => Load(Error(MissingToken), 0)
    case Unreadable => Load(Error(InvalidToken), 0)
    case Payload(role) =>
      if role != "admin" then Load(Error(AccessDenied), 0)
      else if !healthy then Load(Error(Unreachable), 1)
      else
        match response
        case Answered(charts, stats) => Load(Loaded(charts, stats), 2)
        case Errored(status, code, message) => Load(Error(ErrorMessage(status, code, message)), 2)
  }

  /** A non-admin is turned away before any request, whatever the server
      would have answered. */
  lemma NonAdminNeverFetches(role: string, healthy: bool, response: Response)
    requires role != "admin"
    ensures FetchChartStats(Payload(role), healthy, response) == Load(Error(AccessDenied), 0)
  {
  }

  /** A server that refuses the token reports the same message as the
      role check. */
  lemma ServerRefusalLikeRoleCheck(charts: seq<ChartDoc>, code: string, message: string)
    ensures FetchChartStats(Payload("admin"), true, Errored(Some(403), code, message)).page
      == FetchChartStats(Payload("user"), true, Answered(charts, Stats(0, 0, 0, 0, 0, 0, 0, 0))).page
  {
  }

  /** `getFilteredCharts`. */
  function FilteredCharts(charts: seq<ChartDoc>, filter: string): (r: seq<ChartDoc>)
    ensures filter == "all" ==> r == charts
    ensures |r| <= |charts|
  {
    if filter == "all" then charts else Filter(charts, (c: ChartDoc) => c.source == filter)
  }

  /** Any filter but `"all"` keeps exactly the charts of that source, in
      order. */
  lemma FilteredChartsMembers(charts: seq<ChartDoc>, filter: string)
    requires filter != "all"
    ensures forall c :: c in FilteredCharts(charts, filter) <==> c in charts && c.source == filter
    ensures IsSubsequence(FilteredCharts(charts, filter), charts)
  {
    FilterMembers(charts, (c: ChartDoc) => c.source == filter);
    FilterIsSubsequence(charts, (c: ChartDoc) => c.source == filter);
  }

  /** The three chart sources the tables know. */
  predicate KnownSource(t: string) {
    t == "generated" || t == "saved" || t == "downloaded"
  }

  /** `getChartTypeColor`. */
  function SourceColor(t: string): (c: string)
    ensures !KnownSource(t) ==> c == "#6b7280"
  {
    if t == "generated" then "#6366f1"
    else if t == "saved" then "#10b981"
    else if t == "downloaded" then "#f59e0b"
    else "#6b7280"
  }

  /** `getChartTypeIcon`. */
  function SourceIcon(t: string): (i: string)
    ensures !KnownSource(t) ==> i == "fas fa-chart-bar"
  {
    if t == "generated" then "fas fa-magic"
    else if t == "saved" then "fas fa-save"
    else if t == "downloaded" then "fas fa-download"
    else "fas fa-chart-bar"
  }

  /** Each known source has a colour and an icon of its own, and neither is
      the default: a chart's colour or icon tells its source. */
  lemma SourceLegendDistinct(t: string, u: string)
    requires KnownSource(t)
    ensures SourceColor(t) != "#6b7280" && SourceIcon(t) != "fas fa-chart-bar"
    ensures SourceColor(t) == SourceColor(u) <==> t == u
    ensures SourceIcon(t) == SourceIcon(u) <==> t == u
  {
  }
}
