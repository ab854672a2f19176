/** The network diagnostics script: five families of probes (DNS, TCP,
    HTTP, firewall ports, ping) and a proxy check, a report that counts the
    passed probes, and a recommendation chosen from the success rate.

    Every socket, HTTP request and `ping` subprocess is replaced by its
    outcome; the report's floating-point success rate is an exact `real`. */
module NetworkDiagnostics {
  import opened Settings

  /** The status strings the probes record. */
  datatype Status = Ok | Success | Open | Failed | Blocked | Timeout | Error

  /** The statuses `generate_report` counts as passed. */
  predicate Passes(s: Status) {
    s.Ok? || s.Success? || s.Open?
  }

  /** What a probe was aimed at. */
  datatype Target = Host(name: string) | Endpoint(host: string, port: int) | Url(url: string) | Port(number: int)

  datatype ProbeResult = ProbeResult(target: Target, status: Status)

  const DnsEndpoints: seq<string> := ["api.telegram.org", "149.154.167.50", "149.154.175.50", "91.108.56.130"]
  const TcpEndpoints: seq<(string, int)> :=
    [("api.telegram.org", 443), ("api.telegram.org", 80), ("149.154.167.50", 443), ("149.154.175.50", 443)]
  const HttpUrls: seq<string> := ["https://api.telegram.org", "https://www.google.com", "https://httpbin.org/ip"]
  const FirewallPorts: seq<int> := [80, 443, 8080, 8443]
  const PingEndpoints: seq<string> := ["8.8.8.8", "1.1.1.1", "api.telegram.org", "149.154.167.50"]
  const ProxyVars: seq<string> := ["HTTP_PROXY", "HTTPS_PROXY", "http_proxy", "https_proxy"]

  // ---------------------------------------------------------------------
  // Probe outcomes and their classification
  // ---------------------------------------------------------------------

  /** `socket.gethostbyname`: an address, or `socket.gaierror`. */
  datatype DnsOutcome = Resolved(ip: string) | GaiError(message: string)

  function ClassifyDns(o: DnsOutcome): (s: Status)
    ensures s == Ok <==> o.Resolved?
    ensures s == Failed <==> o.GaiError?
  {
    match o
    case Resolved(_) => Ok
    case GaiError(_) => Failed
  }

  /** `socket.create_connection`: a connection, or a socket error or
      timeout. */
  datatype TcpOutcome = Reached | SocketError(message: string)

  function ClassifyTcp(o: TcpOutcome): (s: Status)
    ensures s == Ok <==> o.Reached?
    ensures s == Failed <==> o.SocketError?
  {
    if o.Reached? then Ok else Failed
  }

  /** `requests.get`: any response, whatever its status code, or a
      `RequestException`. */
  datatype HttpOutcome = Response(statusCode: int) | RequestError(message: string)

  /** Any HTTP response is OK, even a 404 or a 500. */
  function ClassifyHttp(o: HttpOutcome): (s: Status)
    ensures Passes(s) <==> o.Response?
    ensures s == Ok <==> o.Response?
    ensures s == Failed <==> o.RequestError?
  {
    match o
    case Response(_) => Ok
    case RequestError(_) => Failed
  }

  /** `sock.connect_ex`: its return code, or an exception. */
  datatype PortOutcome = Returned(code: int) | Raised(message: string)

  /** `check_firewall_ports` per port: 0 is OPEN, any other code BLOCKED,
      an exception ERROR. */
  function ClassifyPort(o: PortOutcome): (s: Status)
    ensures s == Open <==> o == Returned(0)
    ensures s == Blocked <==> o.Returned? && o.code != 0
    ensures s == Error <==> o.Raised?
    ensures Passes(s) <==> o == Returned(0)
  {
    match o
    case Returned(code) => if code == 0 then Open else Blocked
    case Raised(_) => Error
  }

  /** `subprocess.run(ping ...)`: its exit code, `TimeoutExpired`, or any
      other exception. */
  datatype PingOutcome = Exited(code: int) | TimedOut | PingRaised(message: string)

  /** `ping_test` per endpoint: exit code 0 is SUCCESS, any other FAILED,
      a timeout TIMEOUT, another exception ERROR. */
  function ClassifyPing(o: PingOutcome): (s: Status)
    ensures s == Success <==> o == Exited(0)
    ensures s == Failed <==> o.Exited? && o.code != 0
    ensures s == Timeout <==> o.TimedOut?
    ensures s == Error <==> o.PingRaised?
    ensures Passes(s) <==> o == Exited(0)
  {
    match o
    case Exited(code) => if code == 0 then Success else Failed
    case TimedOut => Timeout
    case PingRaised(_) => Error
  }

  // ---------------------------------------------------------------------
  // The probe families
  // ---------------------------------------------------------------------

  function TestDnsResolution(resolve: string -> DnsOutcome): (r: seq<ProbeResult>)
    ensures |r| == |DnsEndpoints|
    ensures forall k :: 0 <= k < |r| ==>
              r[k].target == Host(DnsEndpoints[k]) && r[k].status == ClassifyDns(resolve(DnsEndpoints[k])) &&
              (Passes(r[k].status) <==> resolve(DnsEndpoints[k]).Resolved?)
  {
    seq(|DnsEndpoints|, k requires 0 <= k < |DnsEndpoints| =>
      ProbeResult(Host(DnsEndpoints[k]), ClassifyDns(resolve(DnsEndpoints[k]))))
  }

  function TestTcpConnectivity(connect: (string, int) -> TcpOutcome): (r: seq<ProbeResult>)
    ensures |r| == |TcpEndpoints|
    ensures forall k :: 0 <= k < |r| ==>
              r[k].target == Endpoint(TcpEndpoints[k].0, TcpEndpoints[k].1) &&
              r[k].status == ClassifyTcp(connect(TcpEndpoints[k].0, TcpEndpoints[k].1)) &&
              (Passes(r[k].status) <==> connect(TcpEndpoints[k].0, TcpEndpoints[k].1).Reached?)
  {
    seq(|TcpEndpoints|, k requires 0 <= k < |TcpEndpoints| =>
      ProbeResult(Endpoint(TcpEndpoints[k].0, TcpEndpoints[k].1),
                  ClassifyTcp(connect(TcpEndpoints[k].0, TcpEndpoints[k].1))))
  }

  /** `test_http_connectivity`: no results at all when `requests` cannot be
      imported. */
  function TestHttpConnectivity(requestsAvailable: bool, get: string -> HttpOutcome): (r: seq<ProbeResult>)
    ensures |r| == if requestsAvailable then |HttpUrls| else 0
    ensures forall k :: 0 <= k < |r| ==>
              r[k].target == Url(HttpUrls[k]) && r[k].status == ClassifyHttp(get(HttpUrls[k])) &&
              (Passes(r[k].status) <==> get(HttpUrls[k]).Response?)
  {
    if requestsAvailable then
      seq(|HttpUrls|, k requires 0 <= k < |HttpUrls| =>
        ProbeResult(Url(HttpUrls[k]), ClassifyHttp(get(HttpUrls[k]))))
    else
      []
  }

  function CheckFirewallPorts(connectEx: int -> PortOutcome): (r: seq<ProbeResult>)
    ensures |r| == |FirewallPorts|
    ensures forall k :: 0 <= k < |r| ==>
              r[k].target == Port(FirewallPorts[k]) && r[k].status == ClassifyPort(connectEx(FirewallPorts[k])) &&
              (Passes(r[k].status) <==> connectEx(FirewallPorts[k]) == Returned(0))
  {
    seq(|FirewallPorts|, k requires 0 <= k < |FirewallPorts| =>
      ProbeResult(Port(FirewallPorts[k]), ClassifyPort(connectEx(FirewallPorts[k]))))
  }

  function PingTest(ping: string -> PingOutcome): (r: seq<ProbeResult>)
    ensures |r| == |PingEndpoints|
    ensures forall k :: 0 <= k < |r| ==>
              r[k].target == Host(PingEndpoints[k]) && r[k].status == ClassifyPing(ping(PingEndpoints[k])) &&
              (Passes(r[k].status) <==> ping(PingEndpoints[k]) == Exited(0))
  {
    seq(|PingEndpoints|, k requires 0 <= k < |PingEndpoints| =>
      ProbeResult(Host(PingEndpoints[k]), ClassifyPing(ping(PingEndpoints[k]))))
  }

  /** `check_proxy_settings`: whether any of the four proxy variables is set
      to a non-empty value. */
  function CheckProxySettings(env: string -> Credential): (found: bool)
    ensures found <==> exists k :: 0 <= k < |ProxyVars| && Truthy(env(ProxyVars[k]))
  {
    Truthy(env(ProxyVars[0])) || Truthy(env(ProxyVars[1])) || Truthy(env(ProxyVars[2])) || Truthy(env(ProxyVars[3]))
  }

  // ---------------------------------------------------------------------
  // The report
  // ---------------------------------------------------------------------

  /** A value of `all_results`: a list of probe results, or the proxy flag. */
  datatype CategoryValue = Results(items: seq<ProbeResult>) | Flag(found: bool)

  datatype Category = Category(name: string, value: CategoryValue)

  function CountPassed(items: seq<ProbeResult>): (n: nat)
    ensures n <= |items|
  {
    if |items| == 0 then 0
    else (if Passes(items[0].status) then 1 else 0) + CountPassed(items[1..])
  }

  /** The summed lengths of the list-valued categories. */
  function TotalTests(all: seq<Category>): nat {
    if |all| == 0 then 0
    else Size(all[0]) + TotalTests(all[1..])
  }

  /** The probes a category contributes: its results, none for a flag. */
  function Size(c: Category): nat {
    if c.value.Results? then |c.value.items| else 0
  }

  /** The passed probes of the list-valued categories. */
  function PassedTests(all: seq<Category>): nat {
    if |all| == 0 then 0
    else (if all[0].value.Results? then CountPassed(all[0].value.items) else 0) + PassedTests(all[1..])
  }

  lemma {:induction false} PassedWithinTotal(all: seq<Category>)
    ensures PassedTests(all) <= TotalTests(all)
  {
    if |all| > 0 {
      PassedWithinTotal(all[1..]);
    }
  }

  /** Categories are counted independently: the counts of two runs of
      categories add up. */
  lemma {:induction false} CountsAdd(a: seq<Category>, b: seq<Category>)
    ensures TotalTests(a + b) == TotalTests(a) + TotalTests(b)
    ensures PassedTests(a + b) == PassedTests(a) + PassedTests(b)
  {
    if |a| > 0 {
      assert (a + b)[1..] == a[1..] + b;
      CountsAdd(a[1..], b);
    } else {
      assert a + b == b;
    }
  }

  datatype NetReport = NetReport(total: nat, passed: nat, successRate: real)

  /** `generate_report`, without the file write: only list-valued
      categories are counted, passed probes never exceed the total, and the
      rate is the passed percentage, 0 when nothing was probed. */
  function GenerateReport(all: seq<Category>): (r: NetReport)
    ensures r.total == TotalTests(all) && r.passed == PassedTests(all)
    ensures r.passed <= r.total
    ensures IsPercentage(r.successRate, r.passed, r.total)
  {
    var total := TotalTests(all);
    var passed := PassedTests(all);
    PassedWithinTotal(all);
    NetReport(total, passed, Percentage(passed, total))
  }

  /** The three recommendation bands of `main`. */
  datatype Band = Severe | Degraded | Healthy

  function Recommendation(rate: real): Band {
    if rate < 50.0 then Severe
    else if rate < 80.0 then Degraded
    else Healthy
  }

  /** The bands, stated on the counts: severe below half (or with nothing
      probed), degraded from half to below 80 percent, healthy from 80
      percent on. Exactly one applies to every report. */
  lemma BandsByCounts(all: seq<Category>)
    ensures var r := GenerateReport(all);
            var b := Recommendation(r.successRate);
            (b == Severe <==> r.total == 0 || r.passed * 100 < 50 * r.total) &&
            (b == Degraded <==> r.total > 0 && 50 * r.total <= r.passed * 100 < 80 * r.total) &&
            (b == Healthy <==> r.total > 0 && 80 * r.total <= r.passed * 100)
  {
    var r := GenerateReport(all);
    if r.total > 0 {
      RateComparison(r.successRate, r.passed, r.total, 50);
      RateComparison(r.successRate, r.passed, r.total, 80);
    }
  }

  /** A rate `p` with `p * whole == part * 100` lies below `bound` percent
      exactly when `part * 100 < bound * whole`. */
  lemma RateComparison(p: real, part: nat, whole: nat, bound: nat)
    requires whole > 0
    requires p * (whole as real) == (part as real) * 100.0
    ensures p < bound as real <==> part * 100 < bound * whole
  {
    var w := whole as real;
    assert (part * 100) as real == p * w;
    assert (bound * whole) as real == (bound as real) * w;
    if p < bound as real {
      assert p * w < (bound as real) * w;
    } else {
      assert p * w >= (bound as real) * w;
    }
  }

  /** The outcome of every probe `main` runs. */
  datatype Environment = Environment(
    resolve: string -> DnsOutcome,
    connect: (string, int) -> TcpOutcome,
    requestsAvailable: bool,
    get: string -> HttpOutcome,
    connectEx: int -> PortOutcome,
    env: string -> Credential,
    ping: string -> PingOutcome)

  /** The categories of `all_results`, in the order `main` fills them. */
  function AllResults(e: Environment): seq<Category> {
    [Category("dns_resolution", Results(TestDnsResolution(e.resolve))),
     Category("tcp_connectivity", Results(TestTcpConnectivity(e.connect))),
     Category("http_connectivity", Results(TestHttpConnectivity(e.requestsAvailable, e.get))),
     Category("firewall_ports", Results(CheckFirewallPorts(e.connectEx))),
     Category("proxy_settings", Flag(CheckProxySettings(e.env))),
     Category("ping_test", Results(PingTest(e.ping)))]
  }

  /** `main`: the report of the six probe families it has just run, and the
      recommendation band. A full run counts 19 probes, or 16 without
      `requests`; the proxy flag never counts. */
  function Diagnose(e: Environment): (r: (NetReport, Band))
    ensures r.0 == GenerateReport(AllResults(e))
    ensures r.0.passed == PassedTests(AllResults(e))
    ensures r.0.total == if e.requestsAvailable then 19 else 16
    ensures r.0.passed <= r.0.total
    ensures r.1 == Severe <==> r.0.passed * 100 < 50 * r.0.total
    ensures r.1 == Healthy <==> 80 * r.0.total <= r.0.passed * 100
  {
    var all := AllResults(e);
    var report := GenerateReport(all);
    BandsByCounts(all);
    DiagnoseTotal(e);
    (report, Recommendation(report.successRate))
  }

  lemma DiagnoseTotal(e: Environment)
    ensures TotalTests(AllResults(e)) == if e.requestsAvailable then 19 else 16
  {
    var all := AllResults(e);
    TotalOfSix(all);
  }

  /** The probe count of six categories, one category at a time. */
  lemma TotalOfSix(all: seq<Category>)
    requires |all| == 6
    ensures TotalTests(all) == Size(all[0]) + Size(all[1]) + Size(all[2]) + Size(all[3]) + Size(all[4]) + Size(all[5])
  {
    assert all[5..][1..] == [];
    assert TotalTests(all[5..]) == Size(all[5]);
    assert all[4..][1..] == all[5..];
    assert TotalTests(all[4..]) == Size(all[4]) + TotalTests(all[5..]);
    assert all[3..][1..] == all[4..];
    assert TotalTests(all[3..]) == Size(all[3]) + TotalTests(all[4..]);
    assert all[2..][1..] == all[3..];
    assert TotalTests(all[2..]) == Size(all[2]) + TotalTests(all[3..]);
    assert all[1..][1..] == all[2..];
    assert TotalTests(all[1..]) == Size(all[1]) + TotalTests(all[2..]);
  }
}
