/** The status pill on the home page (SystemStatusPill): it asks the status
    endpoint once per minute and shows a coloured dot and a status text. */
module StatusPill {
  import opened Wrappers
  import opened Text
  import SystemStatus

  /** The fields the pill reads from the endpoint's JSON. `upCount` and
      `totalCount` are declared by the pill but never shown (the endpoint
      sends them as `systemsUp` and `totalSystems`). */
  datatype Status = Status(allOnline: bool, upCount: Option<int>, totalCount: Option<int>, percentageUp: int)

  /** What one fetch gave: the parsed JSON, or an error (the request or the
      parse threw). */
  datatype Fetched = Parsed(status: Status) | Failed

  /** The stand-in when the fetch fails: everything online. */
  const Fallback: Status := Status(true, Some(4), Some(4), 100)

  datatype Colour = Gold | Yellow | Orange | Red

  const Checking: string := "CHECKING_SYSTEMS..."
  const AllOnlineText: string := "ALL_SYSTEMS_ONLINE"

  /** `statusText` */
  function StatusText(s: Status): (r: string)
    ensures s.allOnline ==> r == AllOnlineText
    ensures !s.allOnline ==> StartsWith(r, "SYSTEMS_") && EndsWith(r, "%_ONLINE")
  {
    if s.allOnline then AllOnlineText else "SYSTEMS_" + IntToString(s.percentageUp) + "%_ONLINE"
  }

  /** `indicatorColor` */
  function IndicatorColour(s: Status): Colour {
    if s.allOnline then Gold
    else if s.percentageUp >= 75 then Yellow
    else if s.percentageUp >= 50 then Orange
    else Red
  }

  /** The colour steps down with the percentage: gold only when all is online,
      otherwise yellow from 75%, orange from 50%, red below. */
  lemma ColourBands(s: Status)
    ensures IndicatorColour(s) == Gold <==> s.allOnline
    ensures !s.allOnline ==> (IndicatorColour(s) == Yellow <==> s.percentageUp >= 75)
    ensures !s.allOnline ==> (IndicatorColour(s) == Orange <==> 50 <= s.percentageUp < 75)
    ensures !s.allOnline ==> (IndicatorColour(s) == Red <==> s.percentageUp < 50)
  {
  }

  /** The status text says all is online exactly when the status does, and
      tells two partly-online percentages apart. */
  lemma StatusTextIff(s: Status, t: Status)
    ensures StatusText(s) == AllOnlineText <==> s.allOnline
    ensures !s.allOnline && !t.allOnline ==> (StatusText(s) == StatusText(t) <==> s.percentageUp == t.percentageUp)
  {
    if !s.allOnline {
      assert StatusText(s)[..8] == "SYSTEMS_";
    }
    if !s.allOnline && !t.allOnline && StatusText(s) == StatusText(t) {
      var a := IntToString(s.percentageUp);
      var b := IntToString(t.percentageUp);
      assert "SYSTEMS_" + a + "%_ONLINE" == "SYSTEMS_" + b + "%_ONLINE";
      assert a == StatusText(s)[8..|StatusText(s)| - 8];
      assert b == StatusText(t)[8..|StatusText(t)| - 8];
      IntToStringInjective(s.percentageUp, t.percentageUp);
    }
  }

  lemma IntToStringInjective(m: int, n: int)
    requires IntToString(m) == IntToString(n)
    ensures m == n
  {
    var a := IntToString(m);
    if m < 0 && n < 0 {
      assert NatToString(-m) == a[1..] == NatToString(-n);
      ParseNatToString(-m);
      ParseNatToString(-n);
    } else if m >= 0 && n >= 0 {
      ParseNatToString(m);
      ParseNatToString(n);
    }
  }

  /** What the pill draws. */
  datatype View = Loading | Pill(colour: Colour, text: string)

  class Pill {
    /** `status`, null until the first fetch settles. */
    var status: Option<Status>
    var loading: bool

    /** Loading lasts exactly until a status is set. */
    ghost predicate Valid()
      reads this
    {
      loading <==> status.None?
    }

    constructor ()
      ensures Valid() && loading && status == None
    {
      status := None;
      loading := true;
    }

    /** One run of `fetchStatus` (on mount and then every minute): the parsed
        status, or the everything-online fallback, and loading ends. */
    method Settle(fetched: Fetched)
      requires Valid()
      modifies this
      ensures Valid() && !loading
      ensures status == Some(if fetched.Parsed? then fetched.status else Fallback)
    {
      status := Some(if fetched.Parsed? then fetched.status else Fallback);
      loading := false;
    }

    function Shown(): (v: View)
      requires Valid()
      reads this
      ensures v.Loading? <==> loading
    {
      if loading then Loading else Pill(IndicatorColour(status.value), StatusText(status.value))
    }
  }

  /** Once loaded, the pill shows the same thing for any two statuses that
      agree on `allOnline` and `percentageUp`: the counts play no part. */
  lemma ShownDependsOnTwoFields(s: Status, t: Status)
    requires s.allOnline == t.allOnline && s.percentageUp == t.percentageUp
    ensures IndicatorColour(s) == IndicatorColour(t) && StatusText(s) == StatusText(t)
  {
  }

  /** A failed fetch shows a gold "ALL_SYSTEMS_ONLINE". */
  lemma FailureLooksOnline()
    ensures IndicatorColour(Fallback) == Gold && StatusText(Fallback) == AllOnlineText
  {
  }

  /** The endpoint's own report, read by the pill. */
  function FromReport(r: SystemStatus.StatusReport): Status {
    Status(r.allOnline, None, None, r.percentageUp)
  }

  /** With the endpoint's summary the pill is gold and "ALL_SYSTEMS_ONLINE"
      when both sites are up, yellow at 75% when only the main domain is
      down, and red otherwise; it is never orange. */
  lemma ReportColours(cal: SystemStatus.SiteStatus, main: SystemStatus.SiteStatus)
    ensures var s := FromReport(SystemStatus.Summary(cal, main));
      && (IndicatorColour(s) == Gold <==> cal.up && main.up)
      && (IndicatorColour(s) == Yellow <==> cal.up && !main.up)
      && (IndicatorColour(s) == Red <==> !cal.up)
      && IndicatorColour(s) != Orange
      && (StatusText(s) == AllOnlineText <==> cal.up && main.up)
  {
    SystemStatus.SummaryCounts(cal, main);
    StatusTextIff(FromReport(SystemStatus.Summary(cal, main)), Fallback);
  }
}
