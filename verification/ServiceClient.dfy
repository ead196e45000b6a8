/**
  One inter-service client: its request counters, the running mean of response times kept with
  truncating 64-bit arithmetic, and the breaker that every request reports to.
 */
module ServiceClients {
  import opened Common
  import opened CircuitBreakers

  /** The mean of `n` values from the mean of the first n - 1, without overflow. */
  function MeanStep(average: int, n: nat, d: int): int
    requires n > 0
  {
    TruncDiv(average * (n - 1) + d, n)
  }

  /** The same step as the source computes it, in int64. */
  function MeanStep64(average: int, n: nat, d: int): int
    requires n > 0
  {
    Wrap64(TruncDiv(Wrap64(Wrap64(average * (n - 1)) + d), n))
  }

  function Mean(ds: seq<int>): int {
    if ds == [] then 0 else MeanStep(Mean(ds[..|ds| - 1]), |ds|, ds[|ds| - 1])
  }

  function Mean64(ds: seq<int>): int {
    if ds == [] then 0
    else if |ds| == 1 then ds[0]
    else MeanStep64(Mean64(ds[..|ds| - 1]), |ds|, ds[|ds| - 1])
  }

  function Sum(ds: seq<int>): int {
    if ds == [] then 0 else Sum(ds[..|ds| - 1]) + ds[|ds| - 1]
  }

  ghost predicate Within(ds: seq<int>, lo: int, hi: int) {
    forall i :: 0 <= i < |ds| ==> lo <= ds[i] <= hi
  }

  /** How far the stored average, taken |ds| times, is from the true sum. */
  function Drift(ds: seq<int>): int {
    Sum(ds) - |ds| * Mean(ds)
  }

  /** What one step's division drops. */
  function Dropped(average: int, n: nat, d: int): int
    requires n > 0
  {
    average * (n - 1) + d - n * MeanStep(average, n, d)
  }

  lemma ProductBounds(x: int, n: nat, lo: int, hi: int)
    requires lo <= x <= hi
    ensures lo * n <= x * n <= hi * n
  {
  }

  lemma ShareOut(x: int, n: int)
    ensures (x + 1) * n == x * n + n && (x - 1) * n == x * n - n && x * (n - 1) == x * n - x && x * n == n * x
  {
  }

  /** Truncation drops less than one whole share, toward zero. */
  lemma DroppedBounds(average: int, n: nat, d: int)
    requires n > 0
    ensures -(n - 1) <= Dropped(average, n, d) <= n - 1
    ensures average * (n - 1) + d >= 0 ==> Dropped(average, n, d) >= 0
  {
    ShareOut(MeanStep(average, n, d), n);
  }

  lemma DriftStep(ds: seq<int>)
    requires |ds| > 0
    ensures var n := |ds|; Drift(ds) == Drift(ds[..n - 1]) + Dropped(Mean(ds[..n - 1]), n, ds[n - 1])
  {
    ShareOut(Mean(ds[..|ds| - 1]), |ds| - 1);
  }

  lemma Triangle(n: int)
    ensures (n - 1) * (n - 2) + 2 * (n - 1) == n * (n - 1)
  {
  }

  /** The drift of the stored average from the true one, for any durations at all. */
  lemma {:induction false} DriftBound(ds: seq<int>)
    ensures var n := |ds|; -(n * (n - 1)) <= 2 * Drift(ds) <= n * (n - 1)
  {
    var n := |ds|;
    if n > 0 {
      DriftBound(ds[..n - 1]);
      DriftStep(ds);
      DroppedBounds(Mean(ds[..n - 1]), n, ds[n - 1]);
      Triangle(n);
    }
  }

  lemma TruncWithin(total: int, n: nat, lo: int, hi: int)
    requires n > 0 && lo * n <= total <= hi * n
    ensures lo <= TruncDiv(total, n) <= hi
  {
    var q := TruncDiv(total, n);
    ShareOut(q, n);
    if q < lo { ProductBounds(q + 1, n, q + 1, lo); }
    if q > hi { ProductBounds(q - 1, n, hi, q - 1); }
  }

  lemma StepWithin(average: int, n: nat, d: int, lo: int, hi: int)
    requires n > 0 && lo <= d <= hi && (n == 1 || lo <= average <= hi)
    ensures lo <= MeanStep(average, n, d) <= hi
  {
    if n == 1 {
      assert average * (n - 1) == 0;
    } else {
      ProductBounds(average, n - 1, lo, hi);
    }
    ShareOut(lo, n);
    ShareOut(hi, n);
    TruncWithin(average * (n - 1) + d, n, lo, hi);
  }

  /** Bounds on the durations are bounds on the stored average. */
  lemma {:induction false} MeanWithinRange(ds: seq<int>, lo: int, hi: int)
    requires |ds| > 0 && Within(ds, lo, hi)
    ensures lo <= Mean(ds) <= hi
  {
    var n := |ds|;
    if n > 1 { MeanWithinRange(ds[..n - 1], lo, hi); }
    StepWithin(Mean(ds[..n - 1]), n, ds[n - 1], lo, hi);
  }

  lemma TotalIsNonnegative(average: int, n: nat, d: int)
    requires n > 0 && average >= 0 && d >= 0
    ensures average * (n - 1) + d >= 0 && MeanStep(average, n, d) >= 0
  {
    ProductBounds(average, n - 1, 0, average);
  }

  /** With nonnegative durations the average never overshoots: 0 <= S - n * A <= n(n-1)/2. */
  lemma {:induction false} DriftOfNonnegative(ds: seq<int>)
    requires forall i :: 0 <= i < |ds| ==> ds[i] >= 0
    ensures Mean(ds) >= 0 && Sum(ds) >= 0
    ensures 0 <= Drift(ds) && 2 * Drift(ds) <= |ds| * (|ds| - 1)
  {
    var n := |ds|;
    DriftBound(ds);
    if n > 0 {
      var front, d := ds[..n - 1], ds[n - 1];
      DriftOfNonnegative(front);
      TotalIsNonnegative(Mean(front), n, d);
      DriftStep(ds);
      DroppedBounds(Mean(front), n, d);
    }
  }

  /** As long as the true sum fits in int64, no step overflows and the wrapping computation is the exact one. */
  lemma {:induction false} NoOverflow(ds: seq<int>)
    requires forall i :: 0 <= i < |ds| ==> ds[i] >= 0
    requires Sum(ds) <= INT64_MAX
    ensures Mean64(ds) == Mean(ds)
    ensures |ds| > 0 ==> 0 <= Mean(ds[..|ds| - 1]) * (|ds| - 1) + ds[|ds| - 1] <= Sum(ds)
  {
    var n := |ds|;
    if n > 0 {
      var front, d := ds[..n - 1], ds[n - 1];
      var a := Mean(front);
      DriftOfNonnegative(front);
      NoOverflow(front);
      TotalIsNonnegative(a, n, d);
      ShareOut(a, n - 1);
      ProductBounds(a, n - 1, 0, a);
      assert 0 <= a * (n - 1) <= INT64_MAX;
      StepFits(a, n, d);
      if n == 1 { assert a * (n - 1) + d == d; }
    }
  }

  lemma StepFits(average: int, n: nat, d: int)
    requires n > 0 && 0 <= average * (n - 1) <= INT64_MAX
    requires d >= 0 && average * (n - 1) + d <= INT64_MAX
    ensures MeanStep64(average, n, d) == MeanStep(average, n, d)
  {
    var q := MeanStep(average, n, d);
    TruncWithin(average * (n - 1) + d, n, 0, average * (n - 1) + d) by {
      ProductBounds(n, average * (n - 1) + d, 1, n);
    }
  }

  /** Durations for which every step drops all it can. */
  function Lossy(n: nat): (ds: seq<int>)
    ensures |ds| == n
    ensures forall i :: 0 <= i < n ==> ds[i] >= 0
  {
    if n == 0 then [] else
      var front := Lossy(n - 1);
      front + [(n - 1 - Mean(front) * (n - 1)) % n]
  }

  lemma LossyStep(average: int, n: nat)
    requires n > 0 && average >= 0
    ensures Dropped(average, n, (n - 1 - average * (n - 1)) % n) == n - 1
  {
    var p := average * (n - 1);
    var d := (n - 1 - p) % n;
    var c := (n - 1 - p) / n;
    ProductBounds(average, n - 1, 0, average);
    assert p + d == (-c) * n + (n - 1) by { ShareOut(c, n); }
    QuotientIs(p + d, n, -c, n - 1);
    ShareOut(-c, n);
  }

  lemma QuotientIs(total: int, n: nat, q: int, r: nat)
    requires n > 0 && total >= 0 && total == q * n + r && r < n
    ensures TruncDiv(total, n) == q
  {
    var t := TruncDiv(total, n);
    ShareOut(t, n);
    ShareOut(q, n);
    if t < q { ProductBounds(q, n, t + 1, q); }
    if t > q { ProductBounds(t, n, q + 1, t); }
  }

  /** The drift bound is attained for every number of requests. */
  lemma {:induction false} DriftBoundIsTight(n: nat)
    ensures 2 * Drift(Lossy(n)) == n * (n - 1)
  {
    if n > 0 {
      var front, ds := Lossy(n - 1), Lossy(n);
      assert ds[..n - 1] == front;
      DriftBoundIsTight(n - 1);
      DriftOfNonnegative(front);
      DriftStep(ds);
      LossyStep(Mean(front), n);
      Triangle(n);
    }
  }

  /** The client object. `connection` names a dialled connection. */
  class ServiceClient {
    const serviceName: string
    const serviceType: string
    const connection: nat
    const circuitBreaker: CircuitBreaker
    var lastUsed: Time
    var isHealthy: bool
    var connectionStatus: string
    var requestCount: int
    var successCount: int
    var errorCount: int
    var avgResponseTime: int
    var lastRequestTime: Time
    var circuitState: string
    ghost var durations: seq<int> // of the requests recorded so far

    /** The counters agree with the recorded history. */
    ghost predicate Valid()
      reads `requestCount, `successCount, `errorCount, `avgResponseTime, `durations
    {
      && requestCount == |durations|
      && requestCount == successCount + errorCount
      && avgResponseTime == Mean64(durations)
    }

    /** While the recorded total fits in int64 the stored average is within the drift bound of the true one. */
    lemma AverageIsClose()
      requires Valid() && forall i :: 0 <= i < |durations| ==> durations[i] >= 0
      requires Sum(durations) <= INT64_MAX
      ensures 0 <= Sum(durations) - requestCount * avgResponseTime
      ensures 2 * (Sum(durations) - requestCount * avgResponseTime) <= requestCount * (requestCount - 1)
    {
      DriftOfNonnegative(durations);
      NoOverflow(durations);
    }

    constructor (name: string, kind: string, conn: nat, healthy: bool, now: Time, zero: Time)
      ensures Valid() && durations == []
      ensures serviceName == name && serviceType == kind && connection == conn
      ensures lastUsed == now && isHealthy == healthy
      ensures fresh(circuitBreaker) && circuitBreaker.View() == NewBreaker(zero)
    {
      serviceName, serviceType, connection := name, kind, conn;
      circuitBreaker := new CircuitBreaker(zero);
      lastUsed, isHealthy, connectionStatus := now, healthy, "connected";
      requestCount, successCount, errorCount, avgResponseTime := 0, 0, 0, 0;
      lastRequestTime, circuitState := zero, "closed";
      durations := [];
    }

    method RecordRequest(duration: int, success: bool, now: Time, later: Time)
      requires Valid() && now <= later
      modifies this`requestCount, this`successCount, this`errorCount, this`avgResponseTime
      modifies this`lastRequestTime, this`circuitState, this`durations, circuitBreaker
      ensures Valid() && durations == old(durations) + [duration]
      ensures successCount == old(successCount) + (if success then 1 else 0)
      ensures circuitBreaker.View() ==
              Apply(Apply(old(circuitBreaker.View()), if success then Succeeded(now) else Failed(now)), Polled(now))
      ensures lastRequestTime == now && circuitState == StateName(circuitBreaker.state)
    {
      hide Apply, StateName, Wrap64, TruncDiv;
      requestCount := requestCount + 1;
      lastRequestTime := now;
      if success {
        successCount := successCount + 1;
        circuitBreaker.RecordSuccess(now);
      } else {
        errorCount := errorCount + 1;
        circuitBreaker.RecordFailure(now);
      }
      if requestCount > 1 {
        avgResponseTime := Wrap64(TruncDiv(Wrap64(Wrap64(avgResponseTime * (requestCount - 1)) + duration), requestCount));
      } else {
        avgResponseTime := duration;
      }
      durations := durations + [duration];
      assert durations[..|durations| - 1] == old(durations);
      circuitState := circuitBreaker.GetStateString(now, later);
    }

    /** checkClientHealth: `reply` is None when the health call failed, else whether the service is serving. */
    method CheckHealth(reply: Option<bool>, now: Time)
      modifies this`isHealthy, this`connectionStatus, circuitBreaker
      ensures isHealthy == (reply == Some(true))
      ensures circuitBreaker.View() == match reply
                                       case None => Apply(old(circuitBreaker.View()), Failed(now))
                                       case Some(ok) => if ok then Apply(old(circuitBreaker.View()), Succeeded(now))
                                                        else old(circuitBreaker.View())
      ensures connectionStatus == match reply
                                  case None => "error"
                                  case Some(ok) => if ok then "healthy" else "unhealthy"
    {
      if reply.None? {
        isHealthy := false;
        connectionStatus := "error";
        circuitBreaker.RecordFailure(now);
        return;
      }
      isHealthy := reply.value;
      if isHealthy {
        connectionStatus := "healthy";
        circuitBreaker.RecordSuccess(now);
      } else {
        connectionStatus := "unhealthy";
      }
    }
  }
}
