/** The status endpoint (`GET /api/system-status`): one probe of each of the
    two sites, and the uptime summary built from them. The probe itself (the
    request, its 8-second abort and the clock) is the caller's: a probe's
    outcome is given as the HTTP status it answered with, or none when the
    request threw. */
module SystemStatus {
  import opened Wrappers
  import opened Text

  const CalUrl: string := "https://cal.tenxafrica.co.za"
  const MainUrl: string := "https://tenxafrica.co.za"
  const TotalSystems: nat := 4
  /** Systems counted as up when the cal subdomain answers (n8n, crm, cal). */
  const SubdomainSystems: nat := 3

  /** A 2xx or 3xx answer. */
  predicate Healthy(httpStatus: int) {
    200 <= httpStatus < 400
  }

  /** `url.split('/')[2]`, which is `undefined` when there are fewer than three
      pieces. */
  function SiteName(url: string): (r: Option<string>)
    ensures r.Some? <==> CountChar(url, '/') >= 2
  {
    SplitCount(url, '/');
    var parts := Split(url, '/');
    if |parts| > 2 then Some(parts[2]) else None
  }

  /** For a URL `scheme//host` followed by nothing or by a path, the site name
      is the host. */
  lemma SiteNameIsHost(scheme: string, host: string, path: string)
    requires '/' !in scheme && '/' !in host
    requires path == [] || path[0] == '/'
    ensures SiteName(scheme + "//" + host + path) == Some(host)
  {
    var url := scheme + "//" + host + path;
    assert url == scheme + ['/'] + ([] + ['/'] + (host + path));
    SplitAtFirst(scheme, [] + ['/'] + (host + path), '/');
    SplitAtFirst([], host + path, '/');
    if path == [] {
      SplitNoSep(host, '/');
      assert host + path == host;
    } else {
      assert host + path == host + ['/'] + path[1..];
      SplitAtFirst(host, path[1..], '/');
    }
  }

  /** The two probed sites are named after their hosts. */
  lemma ProbedSiteNames()
    ensures SiteName(CalUrl) == Some("cal.tenxafrica.co.za")
    ensures SiteName(MainUrl) == Some("tenxafrica.co.za")
  {
    CalSiteName();
    MainSiteName();
  }

  lemma CalSiteName()
    ensures SiteName(CalUrl) == Some("cal.tenxafrica.co.za")
  {
    HttpsSiteName(CalUrl, "cal.tenxafrica.co.za");
  }

  lemma MainSiteName()
    ensures SiteName(MainUrl) == Some("tenxafrica.co.za")
  {
    HttpsSiteName(MainUrl, "tenxafrica.co.za");
  }

  lemma HttpsSiteName(url: string, host: string)
    requires url == "https://" + host && '/' !in host
    ensures SiteName(url) == Some(host)
  {
    assert url == "https:" + "//" + host + "";
    SiteNameIsHost("https:", host, "");
  }

  /** `SiteStatus`, without the response time. */
  datatype SiteStatus = SiteStatus(site: Option<string>, url: string, up: bool, httpStatus: Option<int>)

  /** `checkSite`: the answered status decides health; a request that threw
      counts as down with no status. */
  function CheckSite(url: string, answered: Option<int>): (r: SiteStatus)
    ensures r.up <==> answered.Some? && Healthy(answered.value)
    ensures r.httpStatus == answered
    ensures r.url == url && r.site == SiteName(url)
  {
    match answered
    case Some(code) => SiteStatus(SiteName(url), url, Healthy(code), Some(code))
    case None => SiteStatus(SiteName(url), url, false, None)
  }

  /** One entry of `details`; `hostKey` is the JSON key its host is written
      under, which differs between the two entries. */
  datatype SiteDetail = SiteDetail(name: string, hostKey: string, site: Option<string>, up: bool, httpStatus: Option<int>)

  datatype StatusReport = StatusReport(allOnline: bool, systemsUp: nat, totalSystems: nat,
                                       percentageUp: nat, subdomains: SiteDetail, main: SiteDetail)

  /** The uptime summary of the two probes. */
  function Summary(cal: SiteStatus, main: SiteStatus): StatusReport {
    var up := (if cal.up then SubdomainSystems else 0) + (if main.up then 1 else 0);
    StatusReport(up == TotalSystems, up, TotalSystems, RoundDiv(up * 100, TotalSystems),
                 SiteDetail("Subdomains (n8n, crm, cal)", "representative", cal.site, cal.up, cal.httpStatus),
                 SiteDetail("Main Domain", "site", main.site, main.up, main.httpStatus))
  }

  /** What the summary promises: three systems ride on the cal subdomain and
      one on the main domain, so the count is one of 0, 1, 3, 4 out of 4, the
      percentage is a quarter step, and all is online exactly when both sites
      are up. */
  lemma SummaryCounts(cal: SiteStatus, main: SiteStatus)
    ensures var r := Summary(cal, main);
      && r.totalSystems == 4
      && r.systemsUp == (if cal.up then 3 else 0) + (if main.up then 1 else 0)
      && r.systemsUp in {0, 1, 3, 4}
      && r.percentageUp == 25 * r.systemsUp
      && (r.allOnline <==> cal.up && main.up)
  {
    var up := Summary(cal, main).systemsUp;
    assert RoundDiv(up * 100, 4) == 25 * up;
  }

  /** The subdomains entry gives its host under 'representative', the main
      domain entry under 'site'. */
  lemma DetailHostKeys(cal: SiteStatus, main: SiteStatus)
    ensures Summary(cal, main).subdomains.hostKey == "representative"
    ensures Summary(cal, main).main.hostKey == "site"
  {
  }

  /** The reply: always status 200, JSON, never cached. */
  datatype Response = Response(status: int, contentType: string, cacheControl: string, body: StatusReport)

  /** `GET`: probe the cal subdomain and the main domain (in that order in the
      result list) and report. */
  function Get(calAnswer: Option<int>, mainAnswer: Option<int>): (r: Response)
    ensures r.status == 200 && r.cacheControl == "no-store" && r.contentType == "application/json"
  {
    Response(200, "application/json", "no-store", Summary(CheckSite(CalUrl, calAnswer), CheckSite(MainUrl, mainAnswer)))
  }

  /** Whatever the probes answer, the report says all is online exactly when
      both answered with a 2xx or 3xx status, and the details carry each
      site's host and answer. */
  lemma GetReports(calAnswer: Option<int>, mainAnswer: Option<int>)
    ensures var r := Get(calAnswer, mainAnswer).body;
      && (r.allOnline <==> calAnswer.Some? && Healthy(calAnswer.value) && mainAnswer.Some? && Healthy(mainAnswer.value))
      && r.subdomains.site == Some("cal.tenxafrica.co.za") && r.subdomains.httpStatus == calAnswer
      && r.main.site == Some("tenxafrica.co.za") && r.main.httpStatus == mainAnswer
  {
    ProbedSiteNames();
    SummaryCounts(CheckSite(CalUrl, calAnswer), CheckSite(MainUrl, mainAnswer));
  }
}
