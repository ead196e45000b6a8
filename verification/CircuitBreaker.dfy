/**
  The circuit breaker of an inter-service client: a timed machine with three states.

  `Breaker` is the value of the breaker's fields and `Apply` one locked section; the class
  `CircuitBreaker` is proved against them. The lemmas speak about whole runs of events.
 */
module CircuitBreakers {
  import opened Common

  datatype CircuitState = Closed | Open | HalfOpen

  datatype Breaker = Breaker(
    state: CircuitState,
    failureCount: int,
    successCount: int,
    lastFail: Time,
    lastSucc: Time,
    threshold: int,
    timeout: Time)

  /** What happens to a breaker inside one exclusive section, and when. */
  datatype Event = Succeeded(at: Time) | Failed(at: Time) | Polled(at: Time)

  predicate Expired(b: Breaker, now: Time) {
    b.state.Open? && now - b.lastFail > b.timeout
  }

  function Apply(b: Breaker, e: Event): Breaker {
    match e
    case Succeeded(now) =>
      var counted := b.(successCount := b.successCount + 1, lastSucc := now);
      if b.state.HalfOpen? then counted.(state := Closed, failureCount := 0) else counted
    case Failed(now) =>
      var counted := b.(failureCount := b.failureCount + 1, lastFail := now);
      if b.state.Closed? && counted.failureCount >= b.threshold then counted.(state := Open)
      else if b.state.HalfOpen? then counted.(state := Open)
      else counted
    case Polled(now) =>
      if Expired(b, now) then b.(state := HalfOpen) else b
  }

  /** The breaker after the first `n` events. */
  function At(b: Breaker, es: seq<Event>, n: nat): Breaker
    requires n <= |es|
  {
    if n == 0 then b else Apply(At(b, es, n - 1), es[n - 1])
  }

  /** The clock never runs backwards. */
  ghost predicate Ordered(es: seq<Event>) {
    forall i, j :: 0 <= i < j < |es| ==> es[i].at <= es[j].at
  }

  /** A breaker as createClient builds it, for any positive threshold and any timeout. */
  predicate Fresh(b: Breaker) {
    b.state.Closed? && b.failureCount == 0 && b.threshold > 0 && b.timeout >= 0
  }

  function NewBreaker(zero: Time): Breaker {
    Breaker(Closed, 0, 0, zero, zero, 5, 30 * SECOND)
  }

  /** The n-th event closed a half-open breaker. */
  ghost predicate Resets(b: Breaker, es: seq<Event>, n: nat)
    requires 0 < n <= |es|
  {
    At(b, es, n - 1).state.HalfOpen? && At(b, es, n).state.Closed?
  }

  /** After how many of the first `n` events the latest reset lies, or 0 if there was none. */
  ghost function LastReset(b: Breaker, es: seq<Event>, n: nat): (k: nat)
    requires n <= |es|
    ensures k <= n && (k > 0 ==> Resets(b, es, k))
    ensures forall m :: k < m <= n ==> !Resets(b, es, m)
  {
    if n == 0 then 0 else if Resets(b, es, n) then n else LastReset(b, es, n - 1)
  }

  function FailuresIn(es: seq<Event>, lo: nat, hi: nat): nat
    requires lo <= hi <= |es|
  {
    if lo == hi then 0 else FailuresIn(es, lo, hi - 1) + (if es[hi - 1].Failed? then 1 else 0)
  }

  lemma {:induction false} ConfigurationIsFixed(b: Breaker, es: seq<Event>, n: nat)
    requires n <= |es|
    ensures At(b, es, n).threshold == b.threshold && At(b, es, n).timeout == b.timeout
  {
    if n > 0 { ConfigurationIsFixed(b, es, n - 1); }
  }

  /** What comes later does not change an earlier state. */
  lemma {:induction false} AtOfPrefix(b: Breaker, es: seq<Event>, fs: seq<Event>, n: nat)
    requires n <= |es|
    ensures At(b, es + fs, n) == At(b, es, n)
  {
    if n > 0 { AtOfPrefix(b, es, fs, n - 1); }
  }

  /** The failure count is cumulative since the last reset, and alone decides whether the breaker is closed. */
  lemma {:induction false} BreakerHistory(b: Breaker, es: seq<Event>, n: nat)
    requires Fresh(b) && n <= |es|
    ensures At(b, es, n).failureCount == FailuresIn(es, LastReset(b, es, n), n)
    ensures At(b, es, n).state.Closed? <==> At(b, es, n).failureCount < b.threshold
  {
    if n > 0 {
      BreakerHistory(b, es, n - 1);
      ConfigurationIsFixed(b, es, n - 1);
      if Resets(b, es, n) {
        assert FailuresIn(es, n, n) == 0;
      }
    }
  }

  /** Failures need not be consecutive: four of them, a success and a fifth open a new breaker. */
  lemma FailuresNeedNotBeConsecutive(zero: Time, t: Time)
    ensures var es := [Failed(t), Failed(t), Failed(t), Failed(t), Succeeded(t), Failed(t)];
            At(NewBreaker(zero), es, 5).state.Closed? && At(NewBreaker(zero), es, 6).state.Open?
  {
    var b, es := NewBreaker(zero), [Failed(t), Failed(t), Failed(t), Failed(t), Succeeded(t), Failed(t)];
    assert At(b, es, 1) == Apply(b, es[0]);
    assert At(b, es, 2) == Apply(At(b, es, 1), es[1]);
    assert At(b, es, 3) == Apply(At(b, es, 2), es[2]);
    assert At(b, es, 4) == Apply(At(b, es, 3), es[3]);
    assert At(b, es, 5) == Apply(At(b, es, 4), es[4]);
  }

  /** A new breaker opened by five failures at `t` lets a poll try again strictly later than 30 seconds after `t`, and not before. */
  lemma OpensForThirtySeconds(zero: Time, t: Time, now: Time)
    ensures var es := [Failed(t), Failed(t), Failed(t), Failed(t), Failed(t), Polled(now)];
            && At(NewBreaker(zero), es, 4).state.Closed? && At(NewBreaker(zero), es, 5).state.Open?
            && At(NewBreaker(zero), es, 6).state == if now > t + 30_000_000_000 then HalfOpen else Open
  {
    var b, es := NewBreaker(zero), [Failed(t), Failed(t), Failed(t), Failed(t), Failed(t), Polled(now)];
    assert At(b, es, 1) == Apply(b, es[0]);
    assert At(b, es, 2) == Apply(At(b, es, 1), es[1]);
    assert At(b, es, 3) == Apply(At(b, es, 2), es[2]);
    assert At(b, es, 4) == Apply(At(b, es, 3), es[3]);
    assert At(b, es, 5) == Apply(At(b, es, 4), es[4]);
  }

  /** The edges of the machine: each kind of move happens exactly under its own cause. */
  lemma Edges(b: Breaker, e: Event)
    ensures var c := Apply(b, e);
            && (b.state.Closed? && c.state.Open? <==> b.state.Closed? && e.Failed? && b.failureCount + 1 >= b.threshold)
            && (b.state.Open? && c.state.HalfOpen? <==> b.state.Open? && e.Polled? && e.at > b.lastFail + b.timeout)
            && (b.state.HalfOpen? && c.state.Closed? <==> b.state.HalfOpen? && e.Succeeded?)
            && (b.state.HalfOpen? && c.state.Open? <==> b.state.HalfOpen? && e.Failed?)
            && !(b.state.Closed? && c.state.HalfOpen?)
            && !(b.state.Open? && c.state.Closed?)
  {
  }

  /** lastFail is the latest of all failures recorded so far. */
  lemma {:induction false} LastFailIsLatest(b: Breaker, es: seq<Event>, n: nat, m: nat)
    requires Ordered(es) && m < n <= |es| && es[m].Failed?
    ensures es[m].at <= At(b, es, n).lastFail
    ensures At(b, es, n).lastFail <= es[n - 1].at
  {
    if m < n - 1 { LastFailIsLatest(b, es, n - 1, m); }
  }

  /** A breaker that is not closed has seen a failure, and none later than its last event. */
  lemma {:induction false} OnceFailed(b: Breaker, es: seq<Event>, n: nat)
    requires Ordered(es) && Fresh(b) && n <= |es| && !At(b, es, n).state.Closed?
    ensures n > 0 && At(b, es, n).lastFail <= es[n - 1].at
  {
    if n > 0 && !es[n - 1].Failed? { OnceFailed(b, es, n - 1); }
  }

  /** A half-open breaker got there by a poll more than `timeout` after every failure before it. */
  lemma {:induction false} HalfOpenOrigin(b: Breaker, es: seq<Event>, n: nat) returns (k: nat)
    requires Ordered(es) && Fresh(b) && n <= |es| && At(b, es, n).state.HalfOpen?
    ensures 0 < k <= n && es[k - 1].Polled?
    ensures At(b, es, k - 1).state.Open?
    ensures forall i :: k <= i <= n ==> At(b, es, i).state.HalfOpen?
    ensures forall m :: 0 <= m < k && es[m].Failed? ==> es[k - 1].at - es[m].at > b.timeout
    ensures forall m :: k <= m < n ==> !es[m].Failed?
  {
    if At(b, es, n - 1).state.HalfOpen? {
      k := HalfOpenOrigin(b, es, n - 1);
    } else {
      k := n;
      ConfigurationIsFixed(b, es, n - 1);
      forall m | 0 <= m < k && es[m].Failed? ensures es[k - 1].at - es[m].at > b.timeout {
        LastFailIsLatest(b, es, n - 1, m);
      }
    }
  }

  /** Poll `k` opened the way and success `c` closed the breaker, with the quiet interval that requires. */
  ghost predicate RecoveredBy(b: Breaker, es: seq<Event>, k: nat, c: nat)
    requires 0 < k < c <= |es|
  {
    && es[k - 1].Polled? && At(b, es, k - 1).state.Open? && At(b, es, k).state.HalfOpen?
    && es[c - 1].Succeeded? && Resets(b, es, c)
    && (forall m :: 0 <= m < k && es[m].Failed? ==> es[k - 1].at - es[m].at > b.timeout)
    && (forall m :: k <= m < c ==> !es[m].Failed?)
  }

  /**
    Timed safety over whole runs: from an open state to a later closed one there is always a
    poll that found the breaker failure-free for strictly longer than `timeout`, and then a
    success with no failure between the two.
   */
  lemma {:induction false} NoEarlyRecovery(b: Breaker, es: seq<Event>, i: nat, j: nat)
    requires Ordered(es) && Fresh(b) && i < j <= |es|
    requires At(b, es, i).state.Open? && At(b, es, j).state.Closed?
    ensures exists k, c :: i < k < c <= j && RecoveredBy(b, es, k, c)
  {
    if At(b, es, j - 1).state.Closed? {
      NoEarlyRecovery(b, es, i, j - 1);
    } else {
      var k := HalfOpenOrigin(b, es, j - 1);
      assert k > i;
      assert RecoveredBy(b, es, k, j);
    }
  }

  /** Until lastFail + timeout an open breaker stays open, whatever happens to it. */
  lemma {:induction false} OpenUntilDeadline(b: Breaker, es: seq<Event>, i: nat, j: nat)
    requires Ordered(es) && i <= j <= |es| && At(b, es, i).state.Open?
    requires i < j ==> es[j - 1].at <= At(b, es, i).lastFail + b.timeout
    requires i < |es| ==> At(b, es, i).lastFail <= es[i].at
    ensures At(b, es, j).state.Open? && At(b, es, j).lastFail >= At(b, es, i).lastFail
  {
    if i < j {
      OpenUntilDeadline(b, es, i, j - 1);
      ConfigurationIsFixed(b, es, j - 1);
    }
  }

  /** A failure recorded while open pushes the deadline to its own instant plus `timeout`. */
  lemma {:induction false} FailurePushesDeadline(b: Breaker, es: seq<Event>, i: nat, j: nat)
    requires Ordered(es) && i < j <= |es|
    requires es[i].Failed? && At(b, es, i).state.Open?
    requires es[j - 1].at <= es[i].at + b.timeout
    ensures At(b, es, j).state.Open?
  {
    assert At(b, es, i + 1) == Apply(At(b, es, i), es[i]);
    OpenUntilDeadline(b, es, i + 1, j);
  }

  /** Successes recorded while closed or open change neither the state nor the failure count. */
  lemma {:induction false} SuccessesOnlyCountWhenHalfOpen(b: Breaker, es: seq<Event>, n: nat)
    requires n <= |es| && !b.state.HalfOpen?
    requires forall i :: 0 <= i < n ==> es[i].Succeeded?
    ensures At(b, es, n).state == b.state && At(b, es, n).failureCount == b.failureCount
    ensures At(b, es, n).successCount == b.successCount + n
  {
    if n > 0 { SuccessesOnlyCountWhenHalfOpen(b, es, n - 1); }
  }

  // ---- when a poll and a later reading of the state count as one GetState ----

  /** Events in clock order, between `now` and `later`. */
  ghost predicate Between(es: seq<Event>, now: Time, later: Time) {
    now <= later && Ordered(es) && forall i :: 0 <= i < |es| ==> now <= es[i].at <= later
  }

  /**
    GetState polls at `now` and reads its answer from the breaker `end` that the events `es` of its
    gap then lead to. An atomic GetState at instant `i`, after the first `k` of them, explains this
    if it gives the same answer and the events lead to the same breaker.
   */
  ghost predicate ExplainedAt(b: Breaker, now: Time, es: seq<Event>, later: Time, end: Breaker, k: nat, i: Time)
    requires k <= |es|
  {
    var polled := Apply(At(b, es, k), Polled(i));
    && now <= i <= later && (k > 0 ==> es[k - 1].at <= i) && (k < |es| ==> i <= es[k].at)
    && polled.state == end.state && At(polled, es[k..], |es| - k) == end
  }

  /** Some order of the events and one atomic GetState, within the call, explains what it reads. */
  ghost predicate Explained(b: Breaker, now: Time, es: seq<Event>, later: Time) {
    exists k: nat, i :: k <= |es| && ExplainedAt(b, now, es, later, At(Apply(b, Polled(now)), es, |es|), k, i)
  }

  /** After how many of the first `n` events the latest failure lies, or 0 if there was none. */
  ghost function LastFailure(es: seq<Event>, n: nat): (k: nat)
    requires n <= |es|
    ensures k <= n && (k > 0 ==> es[k - 1].Failed?)
  {
    if n == 0 then 0 else if es[n - 1].Failed? then n else LastFailure(es, n - 1)
  }

  /** An open breaker has been open since the latest failure, or from the start if there was none. */
  lemma {:induction false} OpenSinceLastFailure(b: Breaker, es: seq<Event>, n: nat)
    requires n <= |es| && At(b, es, n).state.Open?
    ensures var k := LastFailure(es, n);
            At(b, es, k).state.Open? && (k > 0 ==> At(b, es, k).lastFail == es[k - 1].at)
  {
    if n > 0 && !es[n - 1].Failed? { OpenSinceLastFailure(b, es, n - 1); }
  }

  /** Running the first `k` events and then the rest is running them all. */
  lemma {:induction false} AtInTwo(b: Breaker, es: seq<Event>, k: nat, j: nat)
    requires k + j <= |es|
    ensures At(At(b, es, k), es[k..], j) == At(b, es, k + j)
  {
    if j > 0 { AtInTwo(b, es, k, j - 1); }
  }

  /** A poll that changes nothing, put anywhere, explains a reading that the events alone lead to. */
  lemma IdlePollExplains(b: Breaker, now: Time, es: seq<Event>, later: Time, k: nat, i: Time)
    requires k <= |es| && now <= i <= later && (k > 0 ==> es[k - 1].at <= i) && (k < |es| ==> i <= es[k].at)
    requires !Expired(At(b, es, k), i) && At(b, es, |es|) == At(Apply(b, Polled(now)), es, |es|)
    requires At(b, es, k).state == At(b, es, |es|).state
    ensures Explained(b, now, es, later)
  {
    AtInTwo(b, es, k, |es| - k);
    assert ExplainedAt(b, now, es, later, At(Apply(b, Polled(now)), es, |es|), k, i);
  }

  /** What GetState reads when its own poll makes no difference is always explained. */
  lemma NoDifferenceIsExplained(b: Breaker, now: Time, es: seq<Event>, later: Time)
    requires b.timeout >= 0 && Between(es, now, later)
    requires At(b, es, |es|) == At(Apply(b, Polled(now)), es, |es|)
    ensures Explained(b, now, es, later)
  {
    var n := |es|;
    if At(b, es, n).state.Open? {
      var k := LastFailure(es, n);
      OpenSinceLastFailure(b, es, n);
      OpenSinceLastFailure(Apply(b, Polled(now)), es, n);
      ConfigurationIsFixed(b, es, k);
      IdlePollExplains(b, now, es, later, k, if k == 0 then now else es[k - 1].at);
    } else {
      IdlePollExplains(b, now, es, later, n, later);
    }
  }

  /**
    Exactly when a GetState counts as one atomic operation, whatever events come into its gap: it
    reads HalfOpen, or without its poll the events would have led to the very same breaker.
   */
  lemma ExplainedExactly(b: Breaker, now: Time, es: seq<Event>, later: Time)
    requires b.timeout >= 0 && Between(es, now, later)
    ensures var end := At(Apply(b, Polled(now)), es, |es|);
            Explained(b, now, es, later) <==> end.state.HalfOpen? || At(b, es, |es|) == end
  {
    var n, polled := |es|, Apply(b, Polled(now));
    var end := At(polled, es, n);
    if Explained(b, now, es, later) && !end.state.HalfOpen? {
      var k: nat, i :| k <= n && ExplainedAt(b, now, es, later, end, k, i);
      assert Apply(At(b, es, k), Polled(i)) == At(b, es, k);
      AtInTwo(b, es, k, n - k);
    }
    if At(b, es, n) == end {
      NoDifferenceIsExplained(b, now, es, later);
    } else if end.state.HalfOpen? {
      assert polled.state.HalfOpen?;
      assert es[0..] == es && At(b, es, 0) == b;
      assert ExplainedAt(b, now, es, later, end, 0, now);
    }
  }

  /** Unless the first event of the gap is a success, the poll makes no difference once that event has come. */
  lemma {:induction false} OnlySuccessTells(b: Breaker, now: Time, es: seq<Event>, n: nat)
    requires 0 < n <= |es| && !es[0].Succeeded? && now <= es[0].at
    ensures At(Apply(b, Polled(now)), es, n) == At(b, es, n)
  {
    if n > 1 {
      OnlySuccessTells(b, now, es, n - 1);
    } else {
      assert At(b, es, 1) == Apply(b, es[0]) && At(Apply(b, Polled(now)), es, 1) == Apply(Apply(b, Polled(now)), es[0]);
    }
  }

  /** So a GetState is explained whenever its poll does not move the breaker, or no success comes first. */
  lemma ExplainedUnlessSuccessFirst(b: Breaker, now: Time, es: seq<Event>, later: Time)
    requires b.timeout >= 0 && Between(es, now, later)
    requires !Expired(b, now) || es == [] || !es[0].Succeeded?
    ensures Explained(b, now, es, later)
  {
    ExplainedExactly(b, now, es, later);
    if es != [] && !es[0].Succeeded? { OnlySuccessTells(b, now, es, |es|); }
  }

  /** With one record in the gap: not explained exactly when the poll moves the breaker and the record is a success. */
  lemma OneRecordExplainedExactly(b: Breaker, now: Time, e: Event, later: Time)
    requires b.timeout >= 0 && now <= e.at <= later
    ensures Explained(b, now, [e], later) <==> !(Expired(b, now) && e.Succeeded?)
  {
    ExplainedExactly(b, now, [e], later);
    assert At(b, [e], 1) == Apply(b, e);
    assert At(Apply(b, Polled(now)), [e], 1) == Apply(Apply(b, Polled(now)), e);
  }

  /** Within `timeout` of the instant it is reached, half-open lasts exactly until the first record. */
  lemma {:induction false} HalfOpenUntilRecord(b: Breaker, es: seq<Event>, i: nat, j: nat, since: Time)
    requires i <= j <= |es| && At(b, es, i).state.HalfOpen?
    requires forall k :: i <= k < j ==> since <= es[k].at <= since + b.timeout
    ensures At(b, es, j).state.HalfOpen? <==> forall k :: i <= k < j ==> es[k].Polled?
    ensures !At(b, es, j).state.HalfOpen? ==> At(b, es, j).state.Closed? || At(b, es, j).lastFail >= since
  {
    if i < j {
      HalfOpenUntilRecord(b, es, i, j - 1, since);
      ConfigurationIsFixed(b, es, j - 1);
    }
  }

  function SuccessesIn(es: seq<Event>, n: nat): nat
    requires n <= |es|
  {
    if n == 0 then 0 else SuccessesIn(es, n - 1) + if es[n - 1].Succeeded? then 1 else 0
  }

  /** Every success is counted, in whatever state, and lastSucc is the instant of the latest one. */
  lemma {:induction false} SuccessesAreCounted(b: Breaker, es: seq<Event>, n: nat)
    requires n <= |es|
    ensures At(b, es, n).successCount == b.successCount + SuccessesIn(es, n)
    ensures n > 0 && es[n - 1].Succeeded? ==> At(b, es, n).lastSucc == es[n - 1].at
    ensures n > 0 && !es[n - 1].Succeeded? ==> At(b, es, n).lastSucc == At(b, es, n - 1).lastSucc
  {
    if n > 0 { SuccessesAreCounted(b, es, n - 1); }
  }

  /** The source's breaker object; instants are passed in where the source reads the clock. */
  class CircuitBreaker {
    var state: CircuitState
    var failureCount: int
    var successCount: int
    var lastFailTime: Time
    var lastSuccTime: Time
    var threshold: int
    var timeout: Time

    function View(): Breaker
      reads this
    {
      Breaker(state, failureCount, successCount, lastFailTime, lastSuccTime, threshold, timeout)
    }

    constructor (zero: Time)
      ensures View() == NewBreaker(zero)
    {
      state, failureCount, successCount := Closed, 0, 0;
      lastFailTime, lastSuccTime := zero, zero;
      threshold, timeout := 5, 30 * SECOND;
    }

    method RecordSuccess(now: Time)
      modifies this
      ensures View() == Apply(old(View()), Succeeded(now))
    {
      successCount := successCount + 1;
      lastSuccTime := now;
      if state == HalfOpen {
        state := Closed;
        failureCount := 0;
      }
    }

    method RecordFailure(now: Time)
      modifies this
      ensures View() == Apply(old(View()), Failed(now))
    {
      failureCount := failureCount + 1;
      lastFailTime := now;
      if state == Closed && failureCount >= threshold {
        state := Open;
      } else if state == HalfOpen {
        state := Open;
      }
    }

    /** GetState with nobody else at the breaker: the test and the re-check read the clock in turn. */
    method GetState(now: Time, later: Time) returns (s: CircuitState)
      requires now <= later
      modifies this
      ensures View() == Apply(old(View()), Polled(now))
      ensures s == state
    {
      if state == Open && now - lastFailTime > timeout {
        if state == Open && later - lastFailTime > timeout {
          state := HalfOpen;
        }
      }
      s := state;
    }

    method GetStateString(now: Time, later: Time) returns (s: string)
      requires now <= later
      modifies this
      ensures View() == Apply(old(View()), Polled(now))
      ensures s == StateName(state)
      ensures (s == "closed" && state.Closed?) || (s == "open" && state.Open?) || (s == "half-open" && state.HalfOpen?)
    {
      var st := GetState(now, later);
      match st
      case Closed => s := "closed";
      case Open => s := "open";
      case HalfOpen => s := "half-open";
    }
  }

  function StateName(s: CircuitState): string {
    match s case Closed => "closed" case Open => "open" case HalfOpen => "half-open"
  }
}
