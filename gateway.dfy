/** The edge gateway (services/api-gateway/server.js): prefix routing with
    path rewrite, composite health of the three backends, the proxy's
    outbound request and its choice of reply, and the request metrics it
    keeps. Network calls, the clock and the metrics exposition are inputs. */
module Gateway {
  import opened Common

  // ---------------------------------------------------------------------
  // Configuration: the SERVICES registry
  // ---------------------------------------------------------------------

  const DefaultAuthUrl := "http://auth-service:3001"
  const DefaultProductUrl := "http://product-service:3002"
  const DefaultOrderUrl := "http://order-service:3003"

  /** One entry of the SERVICES object: its key and base URL. */
  datatype Service = Service(key: string, url: string)

  /** Index of the first registry entry whose URL is `url`
      (`Object.keys(SERVICES).find(key => SERVICES[key] === url)`). */
  function FindService(services: seq<Service>, url: string): (r: Option<nat>)
    ensures r.Some? ==> r.value < |services| && services[r.value].url == url
    ensures r.Some? ==> forall j :: 0 <= j < r.value ==> services[j].url != url
    ensures r.None? ==> forall j :: 0 <= j < |services| ==> services[j].url != url
  {
    if services == [] then None
    else if services[0].url == url then Some(0)
    else match FindService(services[1..], url)
      case None => None
      case Some(i) => Some(i + 1)
  }

  /** The `target_service` label of a proxied call: the key found by reverse
      lookup of the target URL, or 'unknown' (also for an empty key, as `||` does). */
  function ServiceName(services: seq<Service>, url: string): (name: string)
    ensures name == "unknown"
            || exists i :: 0 <= i < |services| && services[i].url == url && services[i].key == name
    ensures (forall i :: 0 <= i < |services| ==> services[i].url != url) ==> name == "unknown"
    ensures forall i :: (0 <= i < |services| && services[i].url == url && services[i].key != ""
                         && forall j :: 0 <= j < i ==> services[j].url != url) ==> name == services[i].key
    ensures forall i :: (0 <= i < |services| && services[i].url == url && services[i].key == ""
                         && forall j :: 0 <= j < i ==> services[j].url != url) ==> name == "unknown"
  {
    match FindService(services, url)
    case None => "unknown"
    case Some(i) => if services[i].key == "" then "unknown" else services[i].key
  }

  /** With distinct URLs and non-empty keys, every registered service is
      labelled with its own key. */
  lemma ServiceNameOfRegistered(services: seq<Service>, i: nat)
    requires i < |services|
    requires forall j, k :: 0 <= j < k < |services| ==> services[j].url != services[k].url
    requires services[i].key != ""
    ensures ServiceName(services, services[i].url) == services[i].key
  {
  }

  // ---------------------------------------------------------------------
  // Health aggregation (GET /health/services)
  // ---------------------------------------------------------------------

  /** The settled state of one health-check promise. */
  datatype Settled = Fulfilled | Rejected

  function Entry(o: Settled): string {
    if o.Fulfilled? then "UP" else "DOWN"
  }

  /** `values.every(v => v === target)` */
  function Every(values: seq<string>, target: string): bool {
    values == [] || (values[0] == target && Every(values[1..], target))
  }

  lemma {:induction false} EveryIff(values: seq<string>, target: string)
    ensures Every(values, target) <==> forall i :: 0 <= i < |values| ==> values[i] == target
  {
    if values != [] {
      EveryIff(values[1..], target);
      assert forall i :: 1 <= i < |values| ==> values[i] == values[1..][i - 1];
    }
  }

  datatype HealthSnapshot = HealthSnapshot(auth: string, product: string, order: string, status: string, code: int)

  /** Each entry depends on its own check alone; the overall status is UP
      (HTTP 200) exactly when all three entries are UP, else DEGRADED (503). */
  function AggregateHealth(auth: Settled, product: Settled, order: Settled): (h: HealthSnapshot)
    ensures (h.auth == "UP" <==> auth.Fulfilled?) && (h.auth == "DOWN" <==> auth.Rejected?)
    ensures (h.product == "UP" <==> product.Fulfilled?) && (h.product == "DOWN" <==> product.Rejected?)
    ensures (h.order == "UP" <==> order.Fulfilled?) && (h.order == "DOWN" <==> order.Rejected?)
    ensures h.status == "UP" <==> auth.Fulfilled? && product.Fulfilled? && order.Fulfilled?
    ensures h.status == "DEGRADED" <==> !(auth.Fulfilled? && product.Fulfilled? && order.Fulfilled?)
    ensures (h.code == 200 <==> h.status == "UP") && (h.code == 503 <==> h.status == "DEGRADED")
  {
    var services := [Entry(auth), Entry(product), Entry(order)];
    EveryIff(services, "UP");
    var allUp := Every(services, "UP");
    HealthSnapshot(services[0], services[1], services[2],
                   if allUp then "UP" else "DEGRADED",
                   if allUp then 200 else 503)
  }

  // ---------------------------------------------------------------------
  // Strings: first-occurrence search and replace
  // ---------------------------------------------------------------------

  predicate OccursAt(s: string, pat: string, j: nat) {
    j + |pat| <= |s| && s[j..j + |pat|] == pat
  }

  function IndexFrom(s: string, pat: string, k: nat): (r: Option<nat>)
    decreases |s| - k
    ensures r.Some? ==> k <= r.value && OccursAt(s, pat, r.value)
    ensures r.Some? ==> forall j :: k <= j < r.value ==> !OccursAt(s, pat, j)
    ensures r.None? ==> forall j :: k <= j ==> !OccursAt(s, pat, j)
  {
    if k + |pat| > |s| then None
    else if OccursAt(s, pat, k) then Some(k)
    else IndexFrom(s, pat, k + 1)
  }

  /** `s.indexOf(pat)`: the first position at which `pat` occurs. */
  function IndexOf(s: string, pat: string): Option<nat> {
    IndexFrom(s, pat, 0)
  }

  /** `s.replace(pat, rep)` with a string pattern: only the first occurrence is replaced. */
  function Replace(s: string, pat: string, rep: string): string {
    match IndexOf(s, pat)
    case None => s
    case Some(i) => s[..i] + rep + s[i + |pat|..]
  }

  /** Replacing a pattern the string begins with replaces that leading copy,
      however often the pattern recurs later. */
  lemma ReplaceLeading(pat: string, rest: string, rep: string)
    ensures Replace(pat + rest, pat, rep) == rep + rest
  {
  }

  // ---------------------------------------------------------------------
  // Routing: the three `app.all('<P>/*')` routes and the fixed GET routes
  // ---------------------------------------------------------------------

  /** A proxy route: Express pattern, the prefix its handler strips, the SERVICES key. */
  datatype ProxyRule = ProxyRule(pattern: string, prefix: string, service: string)

  const AuthRule := ProxyRule("/api/auth/*", "/api/auth", "auth")
  const ProductRule := ProxyRule("/api/products/*", "/api/products", "product")
  const OrderRule := ProxyRule("/api/orders/*", "/api/orders", "order")
  const ProxyRules := [AuthRule, ProductRule, OrderRule]

  /** A proxy route matches every path that begins with its prefix followed by a slash. */
  predicate RuleMatches(rule: ProxyRule, path: string) {
    StartsWith(path, rule.prefix + "/")
  }

  lemma NoCommonPrefix(s: string, a: string, b: string, k: nat)
    requires k < |a| && k < |b| && a[k] != b[k]
    ensures !(StartsWith(s, a) && StartsWith(s, b))
  {
  }

  /** The three prefixes are disjoint: no path matches two proxy routes. */
  lemma RulesDisjoint(path: string)
    ensures forall i, j :: 0 <= i < j < |ProxyRules| ==>
              !(RuleMatches(ProxyRules[i], path) && RuleMatches(ProxyRules[j], path))
  {
    NoCommonPrefix(path, AuthRule.prefix + "/", ProductRule.prefix + "/", 5);
    NoCommonPrefix(path, AuthRule.prefix + "/", OrderRule.prefix + "/", 5);
    NoCommonPrefix(path, ProductRule.prefix + "/", OrderRule.prefix + "/", 5);
  }

  datatype Route =
    | HealthRoute
    | ServicesHealthRoute
    | Proxied(rule: ProxyRule)
    | MetricsRoute
    | RootRoute
    | Unmatched

  /** `app.get` routes answer GET and HEAD. */
  predicate IsGet(verb: string) {
    verb == "GET" || verb == "HEAD"
  }

  const GetPaths: set<string> := {"/health", "/health/services", "/metrics", "/"}

  /** The route Express selects, in registration order; `Unmatched` reaches the 404 handler. */
  function Dispatch(verb: string, path: string): (r: Route)
    ensures r.Proxied? ==> r.rule in ProxyRules && RuleMatches(r.rule, path)
    ensures r.Unmatched? <==>
              (forall i :: 0 <= i < |ProxyRules| ==> !RuleMatches(ProxyRules[i], path))
              && !(IsGet(verb) && path in GetPaths)
    ensures IsGet(verb) && path == "/health" ==> r == HealthRoute
    ensures IsGet(verb) && path == "/health/services" ==> r == ServicesHealthRoute
    ensures IsGet(verb) && path == "/metrics" ==> r == MetricsRoute
    ensures IsGet(verb) && path == "/" ==> r == RootRoute
  {
    if IsGet(verb) && path == "/health" then HealthRoute
    else if IsGet(verb) && path == "/health/services" then ServicesHealthRoute
    else if RuleMatches(AuthRule, path) then Proxied(AuthRule)
    else if RuleMatches(ProductRule, path) then Proxied(ProductRule)
    else if RuleMatches(OrderRule, path) then Proxied(OrderRule)
    else if IsGet(verb) && path == "/metrics" then MetricsRoute
    else if IsGet(verb) && path == "/" then RootRoute
    else Unmatched
  }

  /** A path is proxied by a rule exactly when that rule's prefix matches it. */
  lemma DispatchProxied(verb: string, path: string, rule: ProxyRule)
    requires rule in ProxyRules
    ensures Dispatch(verb, path) == Proxied(rule) <==> RuleMatches(rule, path)
  {
    RulesDisjoint(path);
    if RuleMatches(rule, path) {
      assert path[1] == path[..|rule.prefix| + 1][1] == 'a';
    }
  }

  /** The path forwarded upstream: the handler's `req.path.replace(prefix, '')`.
      Express defines `req.path` as a getter, so at run time this assignment may be
      ignored and the original path forwarded; the model follows the code as written. */
  function Rewrite(rule: ProxyRule, path: string): (r: string)
    ensures IndexOf(path, rule.prefix).None? ==> r == path
    ensures IndexOf(path, rule.prefix).Some? ==> |r| == |path| - |rule.prefix|
  {
    Replace(path, rule.prefix, "")
  }

  /** For a matched path `P + rest` the rewritten path is `rest`: the sub-path
      after the prefix, which begins with '/'. */
  lemma RewriteStripsPrefix(rule: ProxyRule, path: string)
    requires RuleMatches(rule, path)
    ensures Rewrite(rule, path) == path[|rule.prefix|..]
    ensures StartsWith(Rewrite(rule, path), "/")
    ensures rule.prefix + Rewrite(rule, path) == path
  {
  }

  /** The `route` label of the request metrics: the matched route's pattern,
      or the raw path when no route matched. */
  function RouteLabel(route: Route, path: string): (name: string)
    ensures route.Proxied? ==> name == route.rule.pattern
    ensures route.Unmatched? ==> name == path
    ensures !route.Proxied? && !route.Unmatched? ==> name in GetPaths
  {
    match route
    case HealthRoute => "/health"
    case ServicesHealthRoute => "/health/services"
    case Proxied(rule) => rule.pattern
    case MetricsRoute => "/metrics"
    case RootRoute => "/"
    case Unmatched => path
  }

  // ---------------------------------------------------------------------
  // Proxy: outbound request and the reply relayed to the caller
  // ---------------------------------------------------------------------

  datatype Request = Request(verb: string, path: string, headers: map<string, string>,
                             body: Json, query: map<string, string>)

  datatype Outbound = Outbound(verb: string, url: string, data: Json,
                               headers: map<string, string>, params: map<string, string>)

  /** The longest prefix of `s` containing none of `stops`. */
  function TakeUntil(s: string, stops: set<char>): (r: string)
    ensures StartsWith(s, r)
    ensures forall i :: 0 <= i < |r| ==> r[i] !in stops
    ensures r == s || s[|r|] in stops
  {
    if s == [] || s[0] in stops then []
    else [s[0]] + TakeUntil(s[1..], stops)
  }

  /** `new URL(url).host`: the authority after `scheme://`, up to the first
      '/', '?' or '#'; `None` where the constructor throws. */
  function HostOf(url: string): (h: Option<string>)
    ensures h.Some? ==> h.value != "" && '/' !in h.value
  {
    match IndexOf(url, "://")
    case None => None
    case Some(i) =>
      var host := TakeUntil(url[i + 3..], {'/', '?', '#'});
      if i == 0 || host == "" then None else Some(host)
  }

  /** The axios call `proxyRequest` issues; `None` when building it throws. */
  function BuildOutbound(req: Request, path: string, serviceUrl: string): (o: Option<Outbound>)
    ensures o.None? <==> HostOf(serviceUrl).None?
    ensures o.Some? ==> o.value.url == serviceUrl + path && o.value.verb == req.verb
                        && o.value.data == req.body && o.value.params == req.query
    ensures o.Some? ==> "host" in o.value.headers && o.value.headers["host"] == HostOf(serviceUrl).value
    ensures o.Some? ==> forall h :: h != "host" ==>
              (h in o.value.headers <==> h in req.headers)
              && (h in req.headers ==> o.value.headers[h] == req.headers[h])
  {
    match HostOf(serviceUrl)
    case None => None
    case Some(host) =>
      Some(Outbound(req.verb, serviceUrl + path, req.body, req.headers["host" := host], req.query))
  }

  datatype UpstreamReply = UpstreamReply(status: int, data: Json)

  /** How the upstream call settled: answered with a 2xx status and data, or
      threw, with the error response when the upstream sent one. */
  datatype Upstream = Answered(status: int, data: Json) | Failed(response: Option<UpstreamReply>)

  /** The outcome of one proxied call: the oracle `send` is asked only when the
      outbound request could be built. */
  function Attempt(req: Request, path: string, serviceUrl: string, send: Outbound -> Upstream): Upstream {
    match BuildOutbound(req, path, serviceUrl)
    case None => Failed(None)
    case Some(o) => send(o)
  }

  /** JavaScript truthiness of a JSON value, as `||` tests it. */
  predicate JsTruthy(j: Json) {
    match j
    case JNull => false
    case JBool(b) => b
    case JNum(n) => n != 0
    case JStr(s) => s != ""
    case _ => true
  }

  datatype Response = Response(status: int, body: Json)

  /** On success the caller gets the upstream status and data unchanged. On
      failure the status is the upstream's when it sent a response (500 for a
      missing one, not 503), and the body names the target URL. */
  function ProxyReply(u: Upstream, serviceUrl: string): (r: Response)
    ensures u.Answered? ==> r == Response(u.status, u.data)
    ensures u.Failed? && u.response.None? ==>
              r == Response(500, JObj([("error", JStr("Service unavailable")), ("service", JStr(serviceUrl))]))
    ensures u.Failed? && u.response.Some? ==>
              var up := u.response.value;
              && r.status == (if up.status != 0 then up.status else 500)
              && r.body == JObj([("error", if JsTruthy(up.data) then up.data else JStr("Service unavailable")),
                                 ("service", JStr(serviceUrl))])
    ensures u.Failed? ==> r.status != 0
  {
    match u
    case Answered(status, data) => Response(status, data)
    case Failed(resp) =>
      var status := if resp.Some? && resp.value.status != 0 then resp.value.status else 500;
      var error := if resp.Some? && JsTruthy(resp.value.data) then resp.value.data else JStr("Service unavailable");
      Response(status, JObj([("error", error), ("service", JStr(serviceUrl))]))
  }

  // ---------------------------------------------------------------------
  // Metrics registry: the three metrics the gateway defines
  // ---------------------------------------------------------------------

  datatype HttpLabels = HttpLabels(verb: string, route: string, status: int)
  datatype HttpSample = HttpSample(labels: HttpLabels, durationMs: nat)
  datatype ProxySample = ProxySample(service: string, status: int, durationMs: nat)

  /** Number of samples in `samples` carrying the labels `l`. */
  function SamplesWith(samples: seq<HttpSample>, l: HttpLabels): nat {
    if samples == [] then 0
    else SamplesWith(samples[..|samples| - 1], l) + (if samples[|samples| - 1].labels == l then 1 else 0)
  }

  class Metrics {
    /** Observations of `http_request_duration_seconds`, in order. */
    var httpDurations: seq<HttpSample>
    /** `http_requests_total`, per label tuple. */
    var httpTotal: map<HttpLabels, nat>
    /** Observations of `proxy_request_duration_seconds`, in order. */
    var proxyDurations: seq<ProxySample>

    /** Every counter equals the number of duration observations with its labels. */
    ghost predicate Valid()
      reads this
    {
      forall l :: Total(l) == SamplesWith(httpDurations, l)
    }

    function Total(l: HttpLabels): nat
      reads this
    {
      if l in httpTotal then httpTotal[l] else 0
    }

    constructor ()
      ensures Valid()
      ensures httpDurations == [] && httpTotal == map[] && proxyDurations == []
    {
      httpDurations, httpTotal, proxyDurations := [], map[], [];
    }

    /** The `finish` handler: one duration observation and one counter
      increment, with the same labels. No counter decreases. */
    method ObserveRequest(labels: HttpLabels, durationMs: nat)
      requires Valid()
      modifies this
      ensures Valid()
      ensures httpDurations == old(httpDurations) + [HttpSample(labels, durationMs)]
      ensures Total(labels) == old(Total(labels)) + 1
      ensures forall l :: l != labels ==> Total(l) == old(Total(l))
      ensures proxyDurations == old(proxyDurations)
    {
      httpTotal := httpTotal[labels := Total(labels) + 1];
      httpDurations := httpDurations + [HttpSample(labels, durationMs)];
      assert httpDurations[..|httpDurations| - 1] == old(httpDurations);
    }

    method ObserveProxy(service: string, status: int, durationMs: nat)
      modifies this
      ensures proxyDurations == old(proxyDurations) + [ProxySample(service, status, durationMs)]
      ensures httpDurations == old(httpDurations) && httpTotal == old(httpTotal)
    {
      proxyDurations := proxyDurations + [ProxySample(service, status, durationMs)];
    }
  }

  // ---------------------------------------------------------------------
  // The gateway: request handling end to end
  // ---------------------------------------------------------------------

  const RootBody := JObj([
    ("message", JStr("API Gateway - Microservices CI/CD Project")),
    ("version", JStr("1.0.0")),
    ("endpoints", JObj([
      ("health", JStr("/health")),
      ("serviceHealth", JStr("/health/services")),
      ("metrics", JStr("/metrics")),
      ("auth", JStr("/api/auth/*")),
      ("products", JStr("/api/products/*")),
      ("orders", JStr("/api/orders/*"))]))])

  function HealthBody(h: HealthSnapshot, now: string): Json {
    JObj([("status", JStr(h.status)),
          ("services", JObj([("auth", JStr(h.auth)), ("product", JStr(h.product)), ("order", JStr(h.order))])),
          ("timestamp", JStr(now))])
  }

  class Gateway {
    const authUrl: string
    const productUrl: string
    const orderUrl: string
    const metrics: Metrics

    /** `process.env.X_SERVICE_URL || default` for each backend. */
    constructor (authEnv: Option<string>, productEnv: Option<string>, orderEnv: Option<string>)
      ensures authUrl == OrElse(authEnv, DefaultAuthUrl)
      ensures productUrl == OrElse(productEnv, DefaultProductUrl)
      ensures orderUrl == OrElse(orderEnv, DefaultOrderUrl)
      ensures fresh(metrics) && metrics.Valid()
      ensures metrics.httpDurations == [] && metrics.httpTotal == map[] && metrics.proxyDurations == []
    {
      authUrl := OrElse(authEnv, DefaultAuthUrl);
      productUrl := OrElse(productEnv, DefaultProductUrl);
      orderUrl := OrElse(orderEnv, DefaultOrderUrl);
      metrics := new Metrics();
    }

    function Services(): seq<Service> {
      [Service("auth", authUrl), Service("product", productUrl), Service("order", orderUrl)]
    }

    function UrlOf(key: string): string {
      if key == "auth" then authUrl else if key == "product" then productUrl else orderUrl
    }

    /** `proxyRequest`: forwards, relays, and records exactly one proxy-duration
        observation labelled with the status sent to the caller. */
    method ProxyRequest(req: Request, path: string, serviceUrl: string,
                        send: Outbound -> Upstream, elapsedMs: nat) returns (resp: Response)
      requires metrics.Valid()
      modifies metrics
      ensures metrics.Valid()
      ensures resp == ProxyReply(Attempt(req, path, serviceUrl, send), serviceUrl)
      ensures metrics.proxyDurations == old(metrics.proxyDurations)
                + [ProxySample(ServiceName(Services(), serviceUrl), resp.status, elapsedMs)]
      ensures metrics.httpDurations == old(metrics.httpDurations)
      ensures metrics.httpTotal == old(metrics.httpTotal)
    {
      var serviceName := ServiceName(Services(), serviceUrl);
      var upstream := Attempt(req, path, serviceUrl, send);
      resp := ProxyReply(upstream, serviceUrl);
      metrics.ObserveProxy(serviceName, resp.status, elapsedMs);
    }

    /** One inbound request through routing and the metrics middleware. The
        callers of the backends are the oracles `send` and `probe`; `exposition`
        is the rendered registry served at /metrics. */
    method Handle(req: Request, send: Outbound -> Upstream, probe: string -> Settled,
                  now: string, exposition: string, proxyMs: nat, totalMs: nat)
      returns (resp: Response)
      requires metrics.Valid()
      modifies metrics
      ensures metrics.Valid()
      ensures var route := Dispatch(req.verb, req.path);
              var labels := HttpLabels(req.verb, RouteLabel(route, req.path), resp.status);
              && metrics.httpDurations == old(metrics.httpDurations) + [HttpSample(labels, totalMs)]
              && metrics.Total(labels) == old(metrics.Total(labels)) + 1
              && (forall l :: l != labels ==> metrics.Total(l) == old(metrics.Total(l)))
              && (route.Proxied? ==>
                    var url := UrlOf(route.rule.service);
                    && resp == ProxyReply(Attempt(req, Rewrite(route.rule, req.path), url, send), url)
                    && metrics.proxyDurations == old(metrics.proxyDurations)
                         + [ProxySample(ServiceName(Services(), url), resp.status, proxyMs)])
              && (!route.Proxied? ==> metrics.proxyDurations == old(metrics.proxyDurations))
              && (route.Unmatched? ==> resp == Response(404, ErrorBody("Route not found")))
              && (route.ServicesHealthRoute? ==>
                    var h := AggregateHealth(probe(authUrl + "/health"), probe(productUrl + "/health"),
                                             probe(orderUrl + "/health"));
                    resp == Response(h.code, HealthBody(h, now)))
              && (route.HealthRoute? ==>
                    resp == Response(200, JObj([("status", JStr("UP")), ("service", JStr("api-gateway")),
                                                ("timestamp", JStr(now))])))
              && (route.MetricsRoute? ==> resp == Response(200, JStr(exposition)))
              && (route.RootRoute? ==> resp == Response(200, RootBody))
    {
      var route := Dispatch(req.verb, req.path);
      match route {
        case HealthRoute =>
          resp := Response(200, JObj([("status", JStr("UP")), ("service", JStr("api-gateway")),
                                      ("timestamp", JStr(now))]));
        case ServicesHealthRoute =>
          var h := AggregateHealth(probe(authUrl + "/health"), probe(productUrl + "/health"),
                                   probe(orderUrl + "/health"));
          resp := Response(h.code, HealthBody(h, now));
        case Proxied(rule) =>
          resp := ProxyRequest(req, Rewrite(rule, req.path), UrlOf(rule.service), send, proxyMs);
        case MetricsRoute =>
          resp := Response(200, JStr(exposition));
        case RootRoute =>
          resp := Response(200, RootBody);
        case Unmatched =>
          resp := Response(404, ErrorBody("Route not found"));
      }
      metrics.ObserveRequest(HttpLabels(req.verb, RouteLabel(route, req.path), resp.status), totalMs);
    }
  }
}
