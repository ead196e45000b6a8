/**
  REDMetricsMiddleware: the metric calls one HTTP request leads to, and what all requests together
  leave in the registry, whatever the interleaving of the threads that serve them.
 */
module Middleware {
  import opened MetricsAdapter
  import opened PrometheusAdapters

  // ---- decimal numerals ----

  function Digits(n: nat): (s: string)
    ensures |s| > 0 && forall i :: 0 <= i < |s| ==> '0' <= s[i] <= '9'
  {
    if n < 10 then [('0' as int + n) as char] else Digits(n / 10) + [('0' as int + n % 10) as char]
  }

  /** strconv.Itoa */
  function Itoa(n: int): string {
    if n < 0 then "-" + Digits(-n) else Digits(n)
  }

  function Number(s: string): int {
    if s == "" then 0 else 10 * Number(s[..|s| - 1]) + (s[|s| - 1] as int - '0' as int)
  }

  function Atoi(s: string): int {
    if s != "" && s[0] == '-' then -Number(s[1..]) else Number(s)
  }

  lemma {:induction false} DigitsRoundTrip(n: nat)
    ensures Number(Digits(n)) == n
  {
    if n >= 10 {
      DigitsRoundTrip(n / 10);
      var s := Digits(n);
      assert s[..|s| - 1] == Digits(n / 10);
    } else {
      assert Digits(n)[..0] == "";
    }
  }

  /** A status code can be read back from its label. */
  lemma ItoaRoundTrip(n: int)
    ensures Atoi(Itoa(n)) == n
  {
    if n < 0 {
      DigitsRoundTrip(-n);
      assert ("-" + Digits(-n))[1..] == Digits(-n);
    } else {
      DigitsRoundTrip(n);
      assert Digits(n)[0] != '-';
    }
  }

  /** The numeral is decimal, most significant digit first. */
  lemma ItoaIsDecimal(n: int)
    ensures 0 <= n < 10 ==> Itoa(n) == ["0123456789"[n]]
    ensures n >= 10 ==> Itoa(n) == Itoa(n / 10) + ["0123456789"[n % 10]]
    ensures n < 0 ==> Itoa(n) == "-" + Itoa(-n)
  {
    var d := if n >= 0 then n % 10 else 0;
    assert "0123456789"[d] == ('0' as int + d) as char;
  }

  // ---- one request ----

  /** A request as the middleware sees it; `panics` if the handler behind it does. */
  datatype Request = Request(verb: string, fullPath: string, status: int, panics: bool)

  const REQUESTS := "http_requests_total"
  const DURATION := "http_request_duration_seconds"
  const ERRORS := "http_request_errors_total"

  predicate RedName(name: string) {
    name == REQUESTS || name == DURATION || name == ERRORS
  }

  const RED_KEYS := {"method", "route", "code"}

  function Route(fullPath: string): string {
    if fullPath == "" then "unknown" else fullPath
  }

  function RedLabels(q: Request): Labels {
    map["method" := q.verb, "route" := Route(q.fullPath), "code" := Itoa(q.status)]
  }

  /** The calls of one request in order; a panic leaves the middleware before the first. */
  function RedCalls(q: Request): seq<Call<string, Labels>> {
    if q.panics then []
    else
      [Call(Counter, REQUESTS, RedLabels(q)), Call(Histogram, DURATION, RedLabels(q))]
      + if q.status >= 400 then [Call(Counter, ERRORS, RedLabels(q))] else []
  }

  /** The label set, spelled out: an empty route is shown as "unknown", any other as it is. */
  lemma LabelsSpelledOut(q: Request)
    ensures RedLabels(q).Keys == {"method", "route", "code"}
    ensures RedLabels(q)["method"] == q.verb && RedLabels(q)["code"] == Itoa(q.status)
    ensures q.fullPath != "" ==> RedLabels(q)["route"] == q.fullPath
    ensures q.fullPath == "" ==> RedLabels(q)["route"] == "unknown"
  {
    hide Itoa;
  }

  /** The two requests go under the same route: the same path, or both without one, as "unknown". */
  predicate SameRoute(q: Request, r: Request) {
    q.fullPath == r.fullPath || (q.fullPath in ["", "unknown"] && r.fullPath in ["", "unknown"])
  }

  /** Label sets tell requests apart by verb, status and path, but for an empty path and the path "unknown", and by nothing else. */
  lemma LabelsIdentify(q: Request, r: Request)
    ensures RedLabels(q) == RedLabels(r) <==>
            q.verb == r.verb && q.status == r.status
            && (q.fullPath == r.fullPath || (q.fullPath in ["", "unknown"] && r.fullPath in ["", "unknown"]))
  {
    ItoaRoundTrip(q.status);
    ItoaRoundTrip(r.status);
    hide Itoa, Atoi;
    if RedLabels(q) == RedLabels(r) {
      assert RedLabels(q)["method"] == RedLabels(r)["method"];
      assert RedLabels(q)["route"] == RedLabels(r)["route"];
      assert RedLabels(q)["code"] == RedLabels(r)["code"];
    }
  }

  // ---- many requests on many threads ----

  function ThreadCalls(requests: seq<Request>): seq<Call<string, Labels>> {
    if requests == [] then [] else ThreadCalls(requests[..|requests| - 1]) + RedCalls(requests[|requests| - 1])
  }

  /** Each thread serves its own requests; `base` are the names the runtime collectors hold. */
  function RedConfig(base: set<string>, requests: seq<seq<Request>>): Config<string, Labels> {
    AdapterConfig(base, seq(|requests|, i requires 0 <= i < |requests| => ThreadCalls(requests[i])))
  }

  /** How many of a thread's requests did not panic and agree with `q` in verb, status and route. */
  function Served(requests: seq<Request>, q: Request): nat {
    if requests == [] then 0
    else
      Served(requests[..|requests| - 1], q)
      + var r := requests[|requests| - 1]; if !r.panics && r.verb == q.verb && r.status == q.status && SameRoute(q, r) then 1 else 0
  }

  function ServedByAll(requests: seq<seq<Request>>, n: nat, q: Request): nat
    requires n <= |requests|
  {
    if n == 0 then 0 else ServedByAll(requests, n - 1, q) + Served(requests[n - 1], q)
  }

  ghost predicate IsRedCall(c: Call<string, Labels>) {
    && c.labels.Keys == RED_KEYS
    && RedName(c.name) && c.kind == if c.name == DURATION then Histogram else Counter
  }

  lemma RedCallsAreRed(q: Request, c: Call<string, Labels>)
    requires c in RedCalls(q)
    ensures IsRedCall(c)
  {
  }

  lemma {:induction false} ThreadCallsAreRed(requests: seq<Request>, c: Call<string, Labels>)
    requires c in ThreadCalls(requests)
    ensures IsRedCall(c)
  {
    hide IsRedCall, RedCalls;
    var last := |requests| - 1;
    if c in RedCalls(requests[last]) { RedCallsAreRed(requests[last], c); } else { ThreadCallsAreRed(requests[..last], c); }
  }

  /** The middleware uses each of its names for one kind and one set of label names. */
  lemma RedIsConsistent(base: set<string>, requests: seq<seq<Request>>)
    requires base !! {REQUESTS, DURATION, ERRORS}
    ensures Consistent(RedConfig(base, requests))
  {
    var g := RedConfig(base, requests);
    forall c | Made(g, c) ensures IsRedCall(c) {
      var i :| 0 <= i < |g.programs| && c in g.programs[i];
      ThreadCallsAreRed(requests[i], c);
    }
    hide Made, RedConfig;
  }

  /** What the registry should show for the three metrics, given how often the labels were served. */
  function Due(name: string, status: int, served: nat): nat {
    if name != ERRORS || status >= 400 then served else 0
  }

  function RedCall(name: string, labels: Labels): Call<string, Labels> {
    Call(if name == DURATION then Histogram else Counter, name, labels)
  }

  lemma OneRequest(q: Request, r: Request, name: string)
    requires RedName(name)
    ensures multiset(RedCalls(r))[RedCall(name, RedLabels(q))]
         == Due(name, q.status, if !r.panics && r.verb == q.verb && r.status == q.status && SameRoute(q, r) then 1 else 0)
  {
    LabelsIdentify(q, r);
    assert (q.fullPath == r.fullPath || (q.fullPath in ["", "unknown"] && r.fullPath in ["", "unknown"])) == SameRoute(q, r);
    hide RedLabels, SameRoute;
  }

  lemma {:induction false} OneThread(requests: seq<Request>, q: Request, name: string)
    requires RedName(name)
    ensures multiset(ThreadCalls(requests))[RedCall(name, RedLabels(q))]
         == Due(name, q.status, Served(requests, q))
  {
    hide RedCall, RedLabels, RedCalls, SameRoute;
    if requests != [] {
      var last := |requests| - 1;
      OneThread(requests[..last], q, name);
      OneRequest(q, requests[last], name);
    }
  }

  lemma {:induction false} AllThreads(base: set<string>, requests: seq<seq<Request>>, n: nat, q: Request, name: string)
    requires RedName(name) && n <= |requests|
    ensures Planned(RedConfig(base, requests).programs, n, RedCall(name, RedLabels(q)))
         == Due(name, q.status, ServedByAll(requests, n, q))
  {
    hide RedCall, RedLabels, ThreadCalls, Served;
    if n > 0 {
      AllThreads(base, requests, n - 1, q, name);
      OneThread(requests[n - 1], q, name);
    }
  }

  /**
    Conservation: once all requests are through, the request counter and the histogram count for a
    method, route and status both show the number of such requests whose handlers did not panic, and
    the error counter shows the same number when the status is an error and zero otherwise.
   */
  lemma RequestsAreConserved(base: set<string>, requests: seq<seq<Request>>, run: seq<State<string, Labels>>, n: nat, q: Request)
    requires IsRun(RedConfig(base, requests), run) && n < |run| && AllDone(RedConfig(base, requests), run[n])
    ensures var served := ServedByAll(requests, |requests|, q);
            var labels := map["method" := q.verb, "route" := if q.fullPath == "" then "unknown" else q.fullPath, "code" := Itoa(q.status)];
            && Exposed(run[n].registry, run[n].values, Call(Counter, "http_requests_total", labels)) == served
            && Exposed(run[n].registry, run[n].values, Call(Histogram, "http_request_duration_seconds", labels)) == served
            && Exposed(run[n].registry, run[n].values, Call(Counter, "http_request_errors_total", labels))
               == if q.status >= 400 then served else 0
  {
    assert RedLabels(q) == map["method" := q.verb, "route" := if q.fullPath == "" then "unknown" else q.fullPath, "code" := Itoa(q.status)];
    hide IsRun, AllDone, RedConfig, RedLabels, Exposed, Planned, ServedByAll;
    var g := RedConfig(base, requests);
    SameThreads(base, requests);
    forall name | RedName(name)
      ensures Exposed(run[n].registry, run[n].values, RedCall(name, RedLabels(q)))
           == Due(name, q.status, ServedByAll(requests, |requests|, q))
    {
      ExposedWhenDone(g, run, n, RedCall(name, RedLabels(q)));
      AllThreads(base, requests, |requests|, q, name);
    }
    RedCallKinds(RedLabels(q));
  }

  lemma SameThreads(base: set<string>, requests: seq<seq<Request>>)
    ensures |RedConfig(base, requests).programs| == |requests|
  {
  }

  /** And all requests do get through: no interleaving blocks, panics in the adapter or runs for ever. */
  lemma RequestsGetThrough(base: set<string>, requests: seq<seq<Request>>, run: seq<State<string, Labels>>)
    requires base !! {REQUESTS, DURATION, ERRORS} && IsRun(RedConfig(base, requests), run)
    ensures |run| <= 6 * Calls(RedConfig(base, requests).programs, |requests|) + 1
    ensures Stuck(RedConfig(base, requests), run[|run| - 1]) ==> AllDone(RedConfig(base, requests), run[|run| - 1])
    ensures NobodyPanicked(run[|run| - 1])
  {
    RedIsConsistent(base, requests);
    SameThreads(base, requests);
    hide RedConfig, Consistent, Stuck, AllDone, Calls, NobodyPanicked;
    EveryRunCompletes(RedConfig(base, requests), run);
    RegisteredAtMostOnce(RedConfig(base, requests), run, |run| - 1);
  }

  // ---- the middleware itself ----

  /** Nobody else uses the middleware's metric names. */
  ghost predicate Own(g: Config<string, Labels>, r: Registry<string>, labels: Labels) {
    Accepts(g, r, RedCall(REQUESTS, labels)) && Accepts(g, r, RedCall(DURATION, labels)) && Accepts(g, r, RedCall(ERRORS, labels))
  }

  lemma OwnKept(g: Config<string, Labels>, r: Registry<string>, values: Values<Labels>, labels: Labels, name: string)
    requires Own(g, r, labels) && RedName(name)
    ensures Own(g, WholeCall(g, r, values, RedCall(name, labels)).0, labels)
  {
    forall other | RedName(other)
      ensures Accepts(g, WholeCall(g, r, values, RedCall(name, labels)).0, RedCall(other, labels))
    {
      hide Accepts, WholeCall;
      AcceptsKept(g, r, values, RedCall(name, labels), RedCall(other, labels));
    }
  }

  /** From `r0` and `values0` the registry came to show `calls`, and the middleware's names are still its own. */
  ghost predicate Came(g: Config<string, Labels>, r0: Registry<string>, values0: Values<Labels>, r: Registry<string>, values: Values<Labels>,
                       calls: seq<Call<string, Labels>>, labels: Labels) {
    Own(g, r, labels) && IdsOk(r) && Numbered(r, values) && ShowsAll(r0, values0, r, values, calls)
  }

  /** One of the handler's calls: accepted, shown once, and the next ones are accepted still. */
  lemma OneCall(g: Config<string, Labels>, r0: Registry<string>, values0: Values<Labels>, r: Registry<string>, values: Values<Labels>,
                calls: seq<Call<string, Labels>>, more: seq<Call<string, Labels>>, name: string, labels: Labels)
    requires more == calls + [RedCall(name, labels)]
    requires RedName(name) && Came(g, r0, values0, r, values, calls, labels)
    ensures WholeCall(g, r, values, RedCall(name, labels)).2
    ensures Came(g, r0, values0, WholeCall(g, r, values, RedCall(name, labels)).0, WholeCall(g, r, values, RedCall(name, labels)).1,
                 more, labels)
  {
    OwnKept(g, r, values, labels, name);
    hide WholeCall, Accepts, ShowsAll, Shows, IdsOk, Numbered;
    CallShows(g, r, values, RedCall(name, labels));
    var after := WholeCall(g, r, values, RedCall(name, labels));
    ShowsOneMore(r0, values0, r, values, calls, after.0, after.1, RedCall(name, labels));
  }

  /** The label map: an empty route gets a marker of its own. */
  method BuildLabels(q: Request) returns (labels: Labels)
    ensures labels == RedLabels(q)
    ensures labels == map["method" := q.verb, "route" := if q.fullPath == "" then "unknown" else q.fullPath, "code" := Itoa(q.status)]
  {
    hide Itoa;
    labels := map["method" := q.verb, "route" := q.fullPath, "code" := Itoa(q.status)];
    if labels["route"] == "" { labels := labels["route" := "unknown"]; }
  }

  lemma RedCallKinds(labels: Labels)
    ensures RedName(REQUESTS) && RedName(DURATION) && RedName(ERRORS)
    ensures RedCall(REQUESTS, labels) == Call(Counter, REQUESTS, labels)
    ensures RedCall(DURATION, labels) == Call(Histogram, DURATION, labels)
    ensures RedCall(ERRORS, labels) == Call(Counter, ERRORS, labels)
  {
  }

  /** The adapter's state came from `r` and `values` by `calls`. */
  ghost predicate Counted(metrics: PrometheusMetricsAdapter, r: Registry<string>, values: Values<Labels>,
                          calls: seq<Call<string, Labels>>, labels: Labels)
    reads metrics
  {
    metrics.Valid() && Came(metrics.Rules(), r, values, metrics.View(), metrics.values, calls, labels)
  }

  lemma CountedAtFirst(metrics: PrometheusMetricsAdapter, labels: Labels)
    requires metrics.Valid() && Own(metrics.Rules(), metrics.View(), labels)
    ensures Counted(metrics, metrics.View(), metrics.values, [], labels)
  {
  }

  lemma RedCallsListed(q: Request)
    requires !q.panics
    ensures q.status < 400 ==> RedCalls(q) == [RedCall(REQUESTS, RedLabels(q)), RedCall(DURATION, RedLabels(q))]
    ensures q.status >= 400 ==>
              RedCalls(q) == [RedCall(REQUESTS, RedLabels(q)), RedCall(DURATION, RedLabels(q))] + [RedCall(ERRORS, RedLabels(q))]
  {
  }

  /** The handler makes its calls one by one, and all of them go through. */
  method RedMetrics(metrics: PrometheusMetricsAdapter, q: Request) returns (ok: bool)
    requires metrics.Valid() && Own(metrics.Rules(), metrics.View(), RedLabels(q))
    modifies metrics
    ensures ok && Counted(metrics, old(metrics.View()), old(metrics.values), RedCalls(q), RedLabels(q))
  {
    ghost var r, values := metrics.View(), metrics.values;
    hide *;
    CountedAtFirst(metrics, RedLabels(q));
    ok := true;
    if q.panics {
      NoCallsOnPanic(q);
      return;
    }
    RedCallsListed(q);
    var labels := BuildLabels(q);
    ok := RecordRateAndDuration(metrics, labels, r, values);
    if q.status >= 400 {
      ok := RecordError(metrics, labels, r, values);
    }
  }

  lemma NoCallsOnPanic(q: Request)
    requires q.panics
    ensures RedCalls(q) == []
  {
  }

  method RecordRateAndDuration(metrics: PrometheusMetricsAdapter, labels: Labels, ghost r: Registry<string>, ghost values: Values<Labels>)
    returns (ok: bool)
    requires Counted(metrics, r, values, [], labels)
    modifies metrics
    ensures ok && Counted(metrics, r, values, [RedCall(REQUESTS, labels), RedCall(DURATION, labels)], labels)
  {
    RedCallKinds(labels);
    hide RedCall, Came, metrics.Valid, metrics.View, metrics.Rules, WholeCall, Shows, Accepts, RedName;
    OneCall(metrics.Rules(), r, values, metrics.View(), metrics.values, [], [RedCall(REQUESTS, labels)], REQUESTS, labels);
    ok := metrics.IncCounter(REQUESTS, labels);
    OneCall(metrics.Rules(), r, values, metrics.View(), metrics.values, [RedCall(REQUESTS, labels)],
            [RedCall(REQUESTS, labels), RedCall(DURATION, labels)], DURATION, labels);
    ok := metrics.ObserveHistogram(DURATION, labels);
  }

  method RecordError(metrics: PrometheusMetricsAdapter, labels: Labels, ghost r: Registry<string>, ghost values: Values<Labels>)
    returns (ok: bool)
    requires Counted(metrics, r, values, [RedCall(REQUESTS, labels), RedCall(DURATION, labels)], labels)
    modifies metrics
    ensures ok && Counted(metrics, r, values, [RedCall(REQUESTS, labels), RedCall(DURATION, labels)] + [RedCall(ERRORS, labels)], labels)
  {
    RedCallKinds(labels);
    hide RedCall, Came, metrics.Valid, metrics.View, metrics.Rules, WholeCall, Shows, Accepts, RedName;
    OneCall(metrics.Rules(), r, values, metrics.View(), metrics.values, [RedCall(REQUESTS, labels), RedCall(DURATION, labels)],
            [RedCall(REQUESTS, labels), RedCall(DURATION, labels)] + [RedCall(ERRORS, labels)], ERRORS, labels);
    ok := metrics.IncCounter(ERRORS, labels);
  }

  /** On a fresh adapter the middleware's names are its own, whatever the request. */
  lemma FreshIsOwn(base: set<string>, q: Request)
    requires base !! {REQUESTS, DURATION, ERRORS}
    ensures Own(AdapterConfig(base, []), Registry(map[], [], 0), RedLabels(q))
  {
  }

  /** And once its own, they are for every other request. */
  lemma OwnForAll(base: set<string>, r: Registry<string>, p: Request, q: Request)
    requires Own(AdapterConfig(base, []), r, RedLabels(p))
    ensures Own(AdapterConfig(base, []), r, RedLabels(q))
  {
  }
}
