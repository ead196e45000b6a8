/**
  Any number of threads at one circuit breaker, lock step by lock step.

  GetState tests the state under the read lock, lets go of it, takes the write lock, tests again,
  and takes the read lock once more to read its answer. The lemmas show that every interleaving
  still is a run of the atomic breaker of `CircuitBreakers`, and that every answer is one the
  atomic breaker would have given at some instant during the call.
 */
module BreakerThreads {
  import opened Common
  import opened CircuitBreakers

  type Tid = nat

  datatype Pc =
    | Idle
    | WantRead                // GetState, at RLock
    | Testing                 // read lock held, before the test
    | Answering(tested: Time) // read lock held, the test at `tested` came out false
    | WantWrite               // the test came out true: read lock released, at Lock
    | Rechecking              // write lock held, before the second test
    | Unlocking               // write lock held, after the second test
    | WantReread              // write lock released, at RLock
    | Rereading               // read lock held again, about to read the answer
    | Answered(answer: CircuitState, fin: nat, finAt: Time)
    | WantRecord(success: bool)
    | Recording(success: bool) // write lock held, before the fields are written
    | Recorded                 // write lock held, fields written

  /** A thread, and the number of events and the instant at which its current call began. */
  datatype Call = Call(pc: Pc, start: nat, startedAt: Time)

  /** `log` lists what was done to the breaker under the write lock, in order. */
  datatype State = State(
    initial: Breaker,
    b: Breaker,
    writer: Option<Tid>,
    readers: set<Tid>,
    calls: map<Tid, Call>,
    log: seq<Event>,
    now: Time)

  datatype Action = CallGetState(t: Tid) | CallRecord(t: Tid, success: bool) | Move(t: Tid)

  predicate HoldsRead(pc: Pc) { pc.Testing? || pc.Answering? || pc.Rereading? }

  predicate HoldsWrite(pc: Pc) { pc.Rechecking? || pc.Unlocking? || pc.Recording? || pc.Recorded? }

  predicate Resting(pc: Pc) { pc.Idle? || pc.Answered? }

  predicate Enabled(s: State, a: Action) {
    a.t in s.calls &&
    var pc := s.calls[a.t].pc;
    match a
    case CallGetState(_) => Resting(pc)
    case CallRecord(_, _) => Resting(pc)
    case Move(_) =>
      match pc
      case Idle => false
      case Answered(_, _, _) => false
      case WantRead => s.writer.None?
      case WantReread => s.writer.None?
      case WantWrite => s.writer.None? && s.readers == {}
      case WantRecord(_) => s.writer.None? && s.readers == {}
      case _ => true
  }

  function Goto(s: State, t: Tid, pc: Pc): State
    requires t in s.calls
  {
    s.(calls := s.calls[t := s.calls[t].(pc := pc)])
  }

  /** Writes the breaker and remembers the event. */
  function Write(s: State, e: Event): State {
    s.(b := Apply(s.b, e), log := s.log + [e])
  }

  /** The effect of one enabled action at instant `now`. */
  function Do(s0: State, a: Action, now: Time): State
    requires Enabled(s0, a)
  {
    var s, t := s0.(now := now), a.t;
    match a
    case CallGetState(_) => s.(calls := s.calls[t := Call(WantRead, |s.log|, now)])
    case CallRecord(_, ok) => s.(calls := s.calls[t := Call(WantRecord(ok), |s.log|, now)])
    case Move(_) =>
      match s.calls[t].pc
      case WantRead => Goto(s.(readers := s.readers + {t}), t, Testing)
      case Testing =>
        if Expired(s.b, now) then Goto(s.(readers := s.readers - {t}), t, WantWrite)
        else Goto(s, t, Answering(now))
      case Answering(_) => Goto(s.(readers := s.readers - {t}), t, Answered(s.b.state, |s.log|, now))
      case WantWrite => Goto(s.(writer := Some(t)), t, Rechecking)
      case Rechecking => Goto(Write(s, Polled(now)), t, Unlocking)
      case Unlocking => Goto(s.(writer := None), t, WantReread)
      case WantReread => Goto(s.(readers := s.readers + {t}), t, Rereading)
      case Rereading => Goto(s.(readers := s.readers - {t}), t, Answered(s.b.state, |s.log|, now))
      case WantRecord(ok) => Goto(s.(writer := Some(t)), t, Recording(ok))
      case Recording(ok) => Goto(Write(s, if ok then Succeeded(now) else Failed(now)), t, Recorded)
      case Recorded => Goto(s.(writer := None), t, Idle)
  }

  ghost predicate Next(s: State, s': State) {
    exists a, now :: Enabled(s, a) && now >= s.now && s' == Do(s, a, now)
  }

  ghost predicate Init(s: State) {
    && Fresh(s.initial) && s.b == s.initial && s.writer.None? && s.readers == {} && s.log == []
    && forall t <- s.calls :: s.calls[t] == Call(Idle, 0, s.now)
  }

  /** A finite interleaving, from a fresh breaker with nobody inside. */
  ghost predicate IsRun(run: seq<State>) {
    |run| > 0 && Init(run[0]) && forall i :: 0 <= i < |run| - 1 ==> Next(run[i], run[i + 1])
  }

  // ---- what every step keeps ----

  ghost predicate LocksAgree(s: State) {
    && (forall t <- s.calls :: HoldsWrite(s.calls[t].pc) <==> s.writer == Some(t))
    && (forall t <- s.calls :: HoldsRead(s.calls[t].pc) <==> t in s.readers)
    && (s.writer.Some? ==> s.writer.value in s.calls && s.readers == {})
    && s.readers <= s.calls.Keys
  }

  /**
    After the first `k` events and at instant `i`, both within the call, an atomic GetState answers
    `r` and leaves the breaker as it is: whatever move the call made is itself among those events.
   */
  ghost predicate AnsweredAt(s: State, c: Call, fin: nat, finAt: Time, k: nat, i: Time, r: CircuitState) {
    && c.start <= k <= fin <= |s.log| && c.startedAt <= i <= finAt
    && (k > 0 ==> s.log[k - 1].at <= i) && (k < |s.log| ==> i <= s.log[k].at)
    && Apply(At(s.initial, s.log, k), Polled(i)) == At(s.initial, s.log, k) && At(s.initial, s.log, k).state == r
  }

  ghost predicate Justified(s: State, c: Call, fin: nat, finAt: Time, r: CircuitState) {
    exists k, i :: AnsweredAt(s, c, fin, finAt, k, i, r)
  }

  ghost predicate CallOk(s: State, c: Call) {
    && c.start <= |s.log|
    && (Resting(c.pc) || c.startedAt <= s.now)
    && match c.pc
       case Answering(tested) =>
         && c.startedAt <= tested <= s.now && !Expired(s.b, tested)
         && (|s.log| > 0 ==> s.log[|s.log| - 1].at <= tested)
       case Unlocking => Justified(s, c, |s.log|, s.now, s.b.state)
       case WantReread => Justified(s, c, |s.log|, s.now, s.b.state)
       case Rereading => Justified(s, c, |s.log|, s.now, s.b.state)
       case Answered(r, fin, finAt) => finAt <= s.now && Justified(s, c, fin, finAt, r)
       case _ => true
  }

  /** The breaker is what the atomic machine makes of the log, and the log is in clock order. */
  ghost predicate LogAgrees(s: State) {
    && Fresh(s.initial)
    && s.b == At(s.initial, s.log, |s.log|)
    && Ordered(s.log)
    && (|s.log| > 0 ==> s.log[|s.log| - 1].at <= s.now)
  }

  ghost predicate Inv(s: State) {
    LocksAgree(s) && LogAgrees(s) && forall t <- s.calls :: CallOk(s, s.calls[t])
  }

  lemma LocksKept(s: State, a: Action, now: Time)
    requires LocksAgree(s) && Enabled(s, a)
    ensures LocksAgree(Do(s, a, now))
  {
  }

  lemma LogKept(s: State, a: Action, now: Time)
    requires LogAgrees(s) && Enabled(s, a) && now >= s.now
    ensures LogAgrees(Do(s, a, now))
  {
    var s' := Do(s, a, now);
    if s'.log != s.log {
      var e := s'.log[|s.log|];
      AtOfPrefix(s.initial, s.log, [e], |s.log|);
    }
  }

  /** A justified answer stays justified as the log grows. */
  lemma JustifiedKept(s: State, s': State, c: Call, c': Call, fin: nat, finAt: Time, fin': nat, finAt': Time, r: CircuitState)
    requires Justified(s, c, fin, finAt, r) && finAt <= s.now <= s'.now
    requires s'.initial == s.initial
    requires s'.log == s.log || (exists e :: s'.log == s.log + [e] && e.at >= s.now)
    requires c'.start == c.start && c'.startedAt == c.startedAt
    requires fin <= fin' <= |s'.log| && finAt <= finAt'
    ensures Justified(s', c', fin', finAt', r)
  {
    var k, i :| AnsweredAt(s, c, fin, finAt, k, i, r);
    if s'.log != s.log {
      var e :| s'.log == s.log + [e] && e.at >= s.now;
      AtOfPrefix(s.initial, s.log, [e], k);
    }
    assert AnsweredAt(s', c', fin', finAt', k, i, r);
  }

  /** Whatever was just written, an atomic GetState right now would answer the new state, or the state did not move. */
  lemma WriteAnswers(s: State, e: Event, c: Call)
    requires LogAgrees(s) && e.at >= s.now && c.start <= |s.log| && c.startedAt <= e.at
    requires e.Polled? || Apply(s.b, e).state != s.b.state
    ensures Justified(Write(s, e).(now := e.at), c, |s.log| + 1, e.at, Apply(s.b, e).state)
  {
    var s' := Write(s, e).(now := e.at);
    AtOfPrefix(s.initial, s.log, [e], |s.log|);
    ConfigurationIsFixed(s.initial, s.log, |s.log|);
    assert At(s.initial, s'.log, |s.log| + 1) == Apply(s.b, e);
    assert AnsweredAt(s', c, |s.log| + 1, e.at, |s.log| + 1, e.at, Apply(s.b, e).state);
  }

  /** A thread that does not move keeps its part of the invariant. */
  lemma BystanderKept(s: State, a: Action, now: Time, u: Tid)
    requires Inv(s) && Enabled(s, a) && now >= s.now && u in s.calls && u != a.t
    ensures CallOk(Do(s, a, now), s.calls[u])
  {
    var s', c := Do(s, a, now), s.calls[u];
    if s'.log == s.log {
      if c.pc.Unlocking? || c.pc.WantReread? || c.pc.Rereading? {
        JustifiedKept(s, s', c, c, |s.log|, s.now, |s.log|, now, s.b.state);
      }
    } else {
      var e := s'.log[|s.log|];
      assert s'.log == s.log + [e] && s' == Goto(Write(s, e), a.t, s'.calls[a.t].pc).(now := e.at);
      if c.pc.WantReread? {
        if s'.b.state == s.b.state {
          JustifiedKept(s, s', c, c, |s.log|, s.now, |s'.log|, now, s.b.state);
        } else {
          WriteAnswers(s, e, c);
          JustifiedKept(Write(s, e).(now := e.at), s', c, c, |s'.log|, now, |s'.log|, now, s'.b.state);
        }
      }
    }
    if c.pc.Answered? {
      JustifiedKept(s, s', c, c, c.pc.fin, c.pc.finAt, c.pc.fin, c.pc.finAt, c.pc.answer);
    }
  }

  /** The thread that moves establishes its next obligation. */
  lemma MoverKept(s: State, a: Action, now: Time)
    requires Inv(s) && Enabled(s, a) && now >= s.now
    ensures CallOk(Do(s, a, now), Do(s, a, now).calls[a.t])
  {
    var s', c := Do(s, a, now), s.calls[a.t];
    var c' := s'.calls[a.t];
    if a.Move? {
      match c.pc
      case Answering(tested) =>
        assert AnsweredAt(s', c', |s.log|, now, |s.log|, tested, s.b.state);
      case Rechecking =>
        WriteAnswers(s, Polled(now), c);
        JustifiedKept(Write(s, Polled(now)).(now := now), s', c, c', |s'.log|, now, |s'.log|, now, s'.b.state);
      case Unlocking => JustifiedKept(s, s', c, c', |s.log|, s.now, |s.log|, now, s.b.state);
      case WantReread => JustifiedKept(s, s', c, c', |s.log|, s.now, |s.log|, now, s.b.state);
      case Rereading => JustifiedKept(s, s', c, c', |s.log|, s.now, |s.log|, now, s.b.state);
      case _ =>
    }
  }

  lemma InvKept(s: State, s': State)
    requires Inv(s) && Next(s, s')
    ensures Inv(s') && s'.now >= s.now
  {
    var a, now :| Enabled(s, a) && now >= s.now && s' == Do(s, a, now);
    LocksKept(s, a, now);
    LogKept(s, a, now);
    hide CallOk, LogAgrees, LocksAgree;
    assert s'.calls == s.calls[a.t := s'.calls[a.t]];
    forall t | t in s'.calls ensures CallOk(s', s'.calls[t]) {
      if t == a.t { MoverKept(s, a, now); } else { BystanderKept(s, a, now, t); }
    }
  }

  lemma {:induction false} RunKeepsInv(run: seq<State>, n: nat)
    requires IsRun(run) && n < |run|
    ensures Inv(run[n]) && run[n].initial == run[0].initial
  {
    if n > 0 {
      RunKeepsInv(run, n - 1);
      InvKept(run[n - 1], run[n]);
    }
  }

  // ---- main results, for every interleaving ----

  /** Refinement: the shared breaker always equals the atomic machine run on an ordered log of locked sections. */
  lemma ThreadsRefineBreaker(run: seq<State>, n: nat)
    requires IsRun(run) && n < |run|
    ensures var s := run[n]; Ordered(s.log) && s.b == At(run[0].initial, s.log, |s.log|)
  {
    RunKeepsInv(run, n);
  }

  /** The edges of the state machine. */
  predicate Edge(before: CircuitState, after: CircuitState) {
    || (before.Closed? && after.Open?) || (before.Open? && after.HalfOpen?)
    || (before.HalfOpen? && after.Closed?) || (before.HalfOpen? && after.Open?)
  }

  /**
    The breaker changes only by a step of the thread that holds the write lock, with no reader
    inside, by one event of the atomic machine, and if its state moves then along one of four edges.
   */
  lemma WrittenOnlyUnderWriteLock(run: seq<State>, n: nat, a: Action, now: Time)
    requires IsRun(run) && n < |run| && Enabled(run[n], a) && now >= run[n].now && Do(run[n], a, now).b != run[n].b
    ensures a.Move? && run[n].writer == Some(a.t) && run[n].readers == {}
    ensures var s' := Do(run[n], a, now);
            && (exists e :: s'.log == run[n].log + [e] && s'.b == Apply(run[n].b, e))
            && (s'.b.state != run[n].b.state ==> Edge(run[n].b.state, s'.b.state))
  {
    RunKeepsInv(run, n);
    var s, s' := run[n], Do(run[n], a, now);
    var e := s'.log[|s.log|];
    assert s'.log == s.log + [e] && s'.b == Apply(s.b, e);
    Edges(s.b, e);
  }

  /**
    Every answer GetState returns is the breaker's state at an instant between call and return, at
    which an atomic GetState would have given the same answer and changed nothing.
   */
  lemma EveryAnswerIsJustified(run: seq<State>, n: nat, t: Tid)
    requires IsRun(run) && n < |run|
    requires t in run[n].calls && run[n].calls[t].pc.Answered?
    ensures var c := run[n].calls[t]; Justified(run[n], c, c.pc.fin, c.pc.finAt, c.pc.answer)
  {
    RunKeepsInv(run, n);
  }

  /** A failure recorded in the unlocked gap is seen by the re-check, which then leaves the breaker as it is. */
  lemma FailureInTheGapIsSeen(run: seq<State>, n: nat, t: Tid, m: nat, now: Time)
    requires IsRun(run) && n < |run|
    requires t in run[n].calls && run[n].calls[t].pc.Rechecking? && now >= run[n].now
    requires m < |run[n].log| && run[n].log[m].Failed? && now - run[n].log[m].at <= run[0].initial.timeout
    ensures Do(run[n], Move(t), now).b == run[n].b
  {
    RunKeepsInv(run, n);
    var s := run[n];
    LastFailIsLatest(s.initial, s.log, |s.log|, m);
    ConfigurationIsFixed(s.initial, s.log, |s.log|);
  }

  /** The timed safety of the atomic breaker holds of every interleaving. */
  lemma NoEarlyRecoveryWithThreads(run: seq<State>, n: nat, i: nat)
    requires IsRun(run) && n < |run| && i < |run[n].log|
    requires At(run[0].initial, run[n].log, i).state.Open? && run[n].b.state.Closed?
    ensures exists k, c :: i < k < c <= |run[n].log| && RecoveredBy(run[0].initial, run[n].log, k, c)
  {
    RunKeepsInv(run, n);
    NoEarlyRecovery(run[0].initial, run[n].log, i, |run[n].log|);
  }

  /** A call that begins with the breaker open and returns by lastFail + timeout answers Open. */
  lemma OpenIsAnsweredUntilDeadline(run: seq<State>, n: nat, t: Tid)
    requires IsRun(run) && n < |run| && t in run[n].calls && run[n].calls[t].pc.Answered?
    requires run[n].calls[t].start <= |run[n].log|
    requires var before := At(run[0].initial, run[n].log, run[n].calls[t].start);
             before.state.Open? && run[n].calls[t].pc.finAt <= before.lastFail + run[0].initial.timeout
    ensures run[n].calls[t].pc.answer.Open?
  {
    RunKeepsInv(run, n);
    var s, c := run[n], run[n].calls[t];
    assert Justified(s, c, c.pc.fin, c.pc.finAt, c.pc.answer);
    var k, i :| AnsweredAt(s, c, c.pc.fin, c.pc.finAt, k, i, c.pc.answer);
    OnceFailed(s.initial, s.log, c.start);
    OpenUntilDeadline(s.initial, s.log, c.start, k);
  }

  // ---- progress ----

  /** Thread t's next lock step, granted as the runtime does: no reader gets past a writer that waits. */
  ghost predicate Granted(s: State, t: Tid) {
    && Enabled(s, Move(t))
    && (s.calls[t].pc.WantRead? || s.calls[t].pc.WantReread? ==>
          forall u :: u in s.calls ==> !s.calls[u].pc.WantWrite? && !s.calls[u].pc.WantRecord?)
  }

  /** While a call is unfinished some thread inside a call can move. */
  lemma SomeCallMoves(run: seq<State>, n: nat, t: Tid)
    requires IsRun(run) && n < |run| && t in run[n].calls && !Resting(run[n].calls[t].pc)
    ensures exists u :: Granted(run[n], u)
  {
    RunKeepsInv(run, n);
    var s := run[n];
    if s.writer.Some? {
      assert Granted(s, s.writer.value);
    } else if s.readers != {} {
      var u :| u in s.readers;
      assert Granted(s, u);
    } else if u :| u in s.calls && (s.calls[u].pc.WantWrite? || s.calls[u].pc.WantRecord?) {
      assert Granted(s, u);
    } else {
      assert Granted(s, t);
    }
  }

  // ---- every call gets through ----

  /** Lock steps to the end of the call at most. */
  function StepsOf(pc: Pc): nat {
    match pc
    case WantRead => 7
    case Testing => 6
    case WantWrite => 5
    case Rechecking => 4
    case Unlocking => 3
    case WantReread => 2
    case Rereading => 1
    case Answering(_) => 1
    case WantRecord(_) => 3
    case Recording(_) => 2
    case Recorded => 1
    case _ => 0
  }

  ghost function StepsLeft(calls: map<Tid, Call>, ts: set<Tid>): nat
    requires ts <= calls.Keys
  {
    if ts == {} then 0 else var t :| t in ts; StepsLeft(calls, ts - {t}) + StepsOf(calls[t].pc)
  }

  /** The sum does not depend on the order in which threads are picked. */
  lemma {:induction false} StepsWithout(calls: map<Tid, Call>, ts: set<Tid>, t: Tid)
    requires ts <= calls.Keys && t in ts
    ensures StepsLeft(calls, ts) == StepsLeft(calls, ts - {t}) + StepsOf(calls[t].pc)
    decreases |ts|
  {
    var u :| u in ts && StepsLeft(calls, ts) == StepsLeft(calls, ts - {u}) + StepsOf(calls[u].pc);
    if u != t {
      StepsWithout(calls, ts - {u}, t);
      StepsWithout(calls, ts - {t}, u);
      assert ts - {u} - {t} == ts - {t} - {u};
    }
  }

  lemma {:induction false} StepsOfOthers(calls: map<Tid, Call>, ts: set<Tid>, t: Tid, c: Call)
    requires ts <= calls.Keys && t !in ts && t in calls
    ensures StepsLeft(calls[t := c], ts) == StepsLeft(calls, ts)
    decreases |ts|
  {
    if ts != {} {
      var u :| u in ts;
      StepsWithout(calls, ts, u);
      StepsWithout(calls[t := c], ts, u);
      StepsOfOthers(calls, ts - {u}, t, c);
    }
  }

  lemma {:induction false} AtMostSeven(calls: map<Tid, Call>, ts: set<Tid>)
    requires ts <= calls.Keys
    ensures StepsLeft(calls, ts) <= 7 * |ts|
    decreases |ts|
  {
    if ts != {} {
      var t :| t in ts;
      StepsWithout(calls, ts, t);
      AtMostSeven(calls, ts - {t});
    }
  }

  lemma MoveIsOneStep(s: State, t: Tid, now: Time)
    requires Enabled(s, Move(t))
    ensures var s' := Do(s, Move(t), now);
            s'.calls.Keys == s.calls.Keys && StepsLeft(s'.calls, s'.calls.Keys) < StepsLeft(s.calls, s.calls.Keys)
  {
    var s' := Do(s, Move(t), now);
    assert s'.calls == s.calls[t := s'.calls[t]] && StepsOf(s'.calls[t].pc) < StepsOf(s.calls[t].pc);
    StepsWithout(s.calls, s.calls.Keys, t);
    StepsOfOthers(s.calls, s.calls.Keys - {t}, t, s'.calls[t]);
    assert s'.calls.Keys == s.calls.Keys;
    StepsWithout(s'.calls, s'.calls.Keys, t);
  }

  /** No call begins between states `m` and `n` of the run. */
  ghost predicate Draining(run: seq<State>, m: nat, n: nat)
    requires m <= n < |run|
  {
    forall i :: m <= i < n ==> Moves(run[i], run[i + 1])
  }

  ghost predicate Moves(s: State, s': State) {
    exists t, now :: Enabled(s, Move(t)) && now >= s.now && s' == Do(s, Move(t), now)
  }

  lemma {:induction false} StepsRunOut(run: seq<State>, m: nat, n: nat)
    requires m <= n < |run| && Draining(run, m, n)
    ensures run[n].calls.Keys == run[m].calls.Keys
    ensures n - m + StepsLeft(run[n].calls, run[n].calls.Keys) <= StepsLeft(run[m].calls, run[m].calls.Keys)
  {
    hide Do, Enabled, StepsLeft;
    if m < n {
      StepsRunOut(run, m, n - 1);
      assert Moves(run[n - 1], run[n]);
      var t, now :| Enabled(run[n - 1], Move(t)) && now >= run[n - 1].now && run[n] == Do(run[n - 1], Move(t), now);
      MoveIsOneStep(run[n - 1], t, now);
    }
  }

  /** Once no more calls begin, at most seven lock steps a thread are left, and where no thread is granted one every call has returned. */
  lemma EveryCallReturns(run: seq<State>, m: nat, n: nat)
    requires IsRun(run) && m <= n < |run| && Draining(run, m, n)
    ensures n - m <= 7 * |run[m].calls.Keys|
    ensures (forall t :: !Granted(run[n], t)) ==> forall t :: t in run[n].calls ==> Resting(run[n].calls[t].pc)
  {
    hide Do, Enabled, StepsLeft, IsRun, Granted;
    StepsRunOut(run, m, n);
    AtMostSeven(run[m].calls, run[m].calls.Keys);
    forall t | t in run[n].calls && !Resting(run[n].calls[t].pc) ensures exists u :: Granted(run[n], u) {
      SomeCallMoves(run, n, t);
    }
  }

  // ---- when GetState answers as one atomic operation would ----

  lemma {:induction false} LogGrows(run: seq<State>, m: nat, n: nat)
    requires IsRun(run) && m <= n < |run|
    ensures run[m].log <= run[n].log && run[m].now <= run[n].now
  {
    hide Do, Enabled, Init;
    if m < n {
      LogGrows(run, m, n - 1);
      assert Next(run[n - 1], run[n]);
      var a, now :| Enabled(run[n - 1], a) && now >= run[n - 1].now && run[n] == Do(run[n - 1], a, now);
      LogExtends(run[n - 1], a, now);
    }
  }

  lemma LogExtends(s: State, a: Action, now: Time)
    requires Enabled(s, a)
    ensures s.log <= Do(s, a, now).log && Do(s, a, now).now == now
  {
  }

  /** Thread t's re-check moves the breaker of state `m` at instant `now`. */
  ghost predicate MovedBy(run: seq<State>, m: nat, t: Tid, now: Time) {
    && m + 1 < |run| && now >= run[m].now && t in run[m].calls && run[m].calls[t].pc.Rechecking?
    && Expired(run[m].b, now) && run[m + 1] == Do(run[m], Move(t), now)
  }

  lemma MovedToHalfOpen(run: seq<State>, m: nat, t: Tid, now: Time)
    requires MovedBy(run, m, t, now)
    ensures run[m + 1].log == run[m].log + [Polled(now)] && run[m + 1].b == Apply(run[m].b, Polled(now)) && run[m + 1].now == now
  {
  }

  /**
    Within `timeout` of the re-check that moved the breaker, and so whenever GetState returns in that
    time, the state it reads is HalfOpen if and only if nothing but polls came into the gap.
   */
  lemma HalfOpenExactlyWithoutRecords(run: seq<State>, m: nat, n: nat, t: Tid, now: Time)
    requires IsRun(run) && MovedBy(run, m, t, now) && m + 1 <= n < |run|
    requires run[n].now <= now + run[0].initial.timeout
    ensures run[m + 1].log <= run[n].log
    ensures run[n].b.state.HalfOpen? <==> forall i :: |run[m + 1].log| <= i < |run[n].log| ==> run[n].log[i].Polled?
  {
    MovedToHalfOpen(run, m, t, now);
    RunKeepsInv(run, m);
    RunKeepsInv(run, m + 1);
    RunKeepsInv(run, n);
    LogGrows(run, m + 1, n);
    hide IsRun, Do, Enabled, LocksAgree, CallOk;
    var es, i := run[n].log, |run[m + 1].log|;
    assert es == run[m + 1].log + es[i..];
    AtOfPrefix(run[0].initial, run[m + 1].log, es[i..], i);
    assert es[i - 1] == Polled(now);
    assert At(run[0].initial, es, i) == run[m + 1].b;
    hide At;
    HalfOpenUntilRecord(run[0].initial, es, i, |es|, now);
  }

  /** What came into the gap by state `n`. */
  ghost function Gap(run: seq<State>, m: nat, n: nat): seq<Event>
    requires m + 1 <= n < |run| && run[m + 1].log <= run[n].log
  {
    run[n].log[|run[m + 1].log|..]
  }

  lemma GapInOrder(run: seq<State>, m: nat, n: nat, t: Tid, now: Time)
    requires IsRun(run) && MovedBy(run, m, t, now) && m + 1 <= n < |run|
    ensures run[m + 1].log <= run[n].log && Between(Gap(run, m, n), now, run[n].now)
  {
    MovedToHalfOpen(run, m, t, now);
    hide MovedBy;
    RunKeepsInv(run, n);
    LogGrows(run, m + 1, n);
    hide IsRun, LocksAgree, CallOk;
    assert run[n].log[|run[m + 1].log| - 1] == Polled(now);
  }

  lemma GapLeadsTo(run: seq<State>, m: nat, n: nat, t: Tid, now: Time)
    requires IsRun(run) && MovedBy(run, m, t, now) && m + 1 <= n < |run| && run[m + 1].log <= run[n].log
    ensures run[m].b.timeout >= 0
    ensures run[n].b == At(Apply(run[m].b, Polled(now)), Gap(run, m, n), |Gap(run, m, n)|)
  {
    MovedToHalfOpen(run, m, t, now);
    hide MovedBy;
    RunKeepsInv(run, m);
    RunKeepsInv(run, m + 1);
    RunKeepsInv(run, n);
    hide IsRun, LocksAgree, CallOk, Ordered;
    ConfigurationIsFixed(run[0].initial, run[m].log, |run[m].log|);
    var k, es := |run[m + 1].log|, Gap(run, m, n);
    assert run[n].log == run[m + 1].log + es;
    AtOfPrefix(run[0].initial, run[m + 1].log, es, k);
    AtInTwo(run[0].initial, run[n].log, k, |es|);
  }

  /**
    In every interleaving, for a GetState whose re-check moved the breaker and whatever comes into its
    gap: some order of the gap's events and one atomic GetState explains what it reads if and only if
    it reads HalfOpen, or without its poll the events would have led to the very same breaker.
   */
  lemma GetStateIsExplainedExactly(run: seq<State>, m: nat, n: nat, t: Tid, now: Time)
    requires IsRun(run) && MovedBy(run, m, t, now) && m + 1 <= n < |run|
    ensures run[m + 1].log <= run[n].log
    ensures var es := Gap(run, m, n);
            Explained(run[m].b, now, es, run[n].now) <==>
            run[n].b.state.HalfOpen? || At(run[m].b, es, |es|) == run[n].b
    ensures Gap(run, m, n) == [] || !Gap(run, m, n)[0].Succeeded? ==> Explained(run[m].b, now, Gap(run, m, n), run[n].now)
  {
    GapInOrder(run, m, n, t, now);
    GapLeadsTo(run, m, n, t, now);
    hide IsRun, MovedBy, Explained, Expired, At, Gap;
    ExplainedExactly(run[m].b, now, Gap(run, m, n), run[n].now);
    if Gap(run, m, n) == [] || !Gap(run, m, n)[0].Succeeded? {
      ExplainedUnlessSuccessFirst(run[m].b, now, Gap(run, m, n), run[n].now);
    }
  }

  /** If exactly one record came into the gap, that is: unless it is a success. */
  lemma OneRecordInTheGap(run: seq<State>, m: nat, n: nat, t: Tid, now: Time, e: Event)
    requires IsRun(run) && MovedBy(run, m, t, now) && m + 1 <= n < |run|
    requires run[n].log == run[m + 1].log + [e] && !e.Polled?
    ensures run[n].b == Apply(Apply(run[m].b, Polled(now)), e)
    ensures Explained(run[m].b, now, [e], run[n].now) <==> e.Failed?
  {
    GapInOrder(run, m, n, t, now);
    GapLeadsTo(run, m, n, t, now);
    assert Gap(run, m, n) == [e];
    assert At(Apply(run[m].b, Polled(now)), [e], 1) == Apply(Apply(run[m].b, Polled(now)), e);
    hide IsRun, Explained;
    OneRecordExplainedExactly(run[m].b, now, e, run[n].now);
  }

  // ---- GetState is not one atomic operation ----

  ghost predicate Reaches(s: State, s': State) {
    exists path: seq<State> ::
      |path| > 0 && path[0] == s && path[|path| - 1] == s' && forall i :: 0 <= i < |path| - 1 ==> Next(path[i], path[i + 1])
  }

  lemma ReachesStep(s0: State, s: State, a: Action, now: Time, s': State)
    requires Reaches(s0, s) && Enabled(s, a) && now >= s.now && s' == Do(s, a, now)
    ensures Reaches(s0, s')
  {
    hide Do, Enabled;
    assert Next(s, s');
    var path: seq<State> :|
      |path| > 0 && path[0] == s0 && path[|path| - 1] == s && forall i :: 0 <= i < |path| - 1 ==> Next(path[i], path[i + 1]);
    var longer := path + [s'];
    assert forall i :: 0 <= i < |longer| - 1 ==> Next(longer[i], longer[i + 1]);
    assert longer[0] == s0 && longer[|longer| - 1] == s';
  }

  /** A whole write section of thread t. */
  lemma WriteSection(s0: State, s: State, t: Tid, e: Event)
    requires Reaches(s0, s) && t in s.calls && s.writer.None? && s.readers == {} && e.at == s.now
    requires s.calls[t].pc == (if e.Polled? then WantWrite else WantRecord(e.Succeeded?))
    ensures Reaches(s0, Goto(Write(s, e), t, if e.Polled? then WantReread else Idle))
  {
    hide Reaches, Apply;
    var locked := Goto(s.(writer := Some(t)), t, if e.Polled? then Rechecking else Recording(e.Succeeded?));
    var written := Goto(Write(s, e).(writer := Some(t)), t, if e.Polled? then Unlocking else Recorded);
    ReachesStep(s0, s, Move(t), s.now, locked);
    ReachesStep(s0, locked, Move(t), s.now, written);
    ReachesStep(s0, written, Move(t), s.now, Goto(Write(s, e), t, if e.Polled? then WantReread else Idle));
  }

  /** A GetState that finds the timeout over, up to the gap between its write lock and its second read lock. */
  lemma PollSection(s: State, t: Tid)
    requires t in s.calls && Resting(s.calls[t].pc) && s.writer.None? && s.readers == {} && Expired(s.b, s.now)
    ensures Reaches(s, Write(s, Polled(s.now)).(calls := s.calls[t := Call(WantReread, |s.log|, s.now)]))
  {
    var s1 := s.(calls := s.calls[t := Call(WantRead, |s.log|, s.now)]);
    assert Reaches(s, s) by { assert |[s]| > 0 && [s][0] == s; }
    hide Reaches, Apply;
    ReachesStep(s, s, CallGetState(t), s.now, s1);
    ReachesStep(s, s1, Move(t), s.now, Goto(s1.(readers := {t}), t, Testing));
    ReachesStep(s, Goto(s1.(readers := {t}), t, Testing), Move(t), s.now, Goto(s1, t, WantWrite));
    WriteSection(s, Goto(s1, t, WantWrite), t, Polled(s.now));
  }

  /** A record by thread u at instant `e.at` with nobody else at the locks. */
  lemma RecordSection(s0: State, s: State, u: Tid, e: Event)
    requires Reaches(s0, s) && u in s.calls && Resting(s.calls[u].pc) && s.writer.None? && s.readers == {}
    requires !e.Polled? && e.at >= s.now
    ensures Reaches(s0, Write(s, e).(now := e.at, calls := s.calls[u := Call(Idle, |s.log|, e.at)]))
  {
    hide Reaches, Apply;
    var s1 := s.(now := e.at, calls := s.calls[u := Call(WantRecord(e.Succeeded?), |s.log|, e.at)]);
    ReachesStep(s0, s, CallRecord(u, e.Succeeded?), e.at, s1);
    WriteSection(s0, s1, u, e);
    assert s1.calls[u := Call(Idle, |s.log|, e.at)] == s.calls[u := Call(Idle, |s.log|, e.at)];
  }

  lemma SuccessAfterPoll(b: Breaker, now: Time)
    requires Expired(b, now)
    ensures Apply(Apply(b, Polled(now)), Succeeded(now)).state.Closed?
    ensures Apply(b, Polled(now)).state.HalfOpen? && Apply(Apply(b, Succeeded(now)), Polled(now)).state.HalfOpen?
  {
  }

  /** A state from which two threads can produce an answer of no order. */
  ghost predicate Ripe(s: State, t: Tid, u: Tid) {
    && t != u && t in s.calls && u in s.calls && Resting(s.calls[t].pc) && Resting(s.calls[u].pc)
    && s.writer.None? && s.readers == {} && Expired(s.b, s.now)
  }

  /**
    Whenever the timeout of an open breaker is over, a success that falls between the two halves of
    a GetState makes it answer Closed, although an atomic GetState answers HalfOpen both before and
    after that success: no order of the two calls explains the answer.
   */
  lemma AnswerOfNoOrder(s: State, t: Tid, u: Tid)
    requires Ripe(s, t, u)
    ensures exists s' :: Reaches(s, s') && s'.calls.Keys == s.calls.Keys && s'.log == s.log + [Polled(s.now), Succeeded(s.now)]
                         && s'.calls[t].pc == Answered(Closed, |s'.log|, s.now)
    ensures Apply(s.b, Polled(s.now)).state.HalfOpen?
    ensures Apply(Apply(s.b, Succeeded(s.now)), Polled(s.now)).state.HalfOpen?
  {
    var s1 := Write(s, Polled(s.now)).(calls := s.calls[t := Call(WantReread, |s.log|, s.now)]);
    var s2 := Write(s1, Succeeded(s.now)).(calls := s1.calls[u := Call(Idle, |s1.log|, s.now)]);
    SuccessAfterPoll(s.b, s.now);
    PollSection(s, t);
    hide Reaches, Apply, Expired;
    RecordSection(s, s1, u, Succeeded(s.now));
    assert s2.log == s.log + [Polled(s.now), Succeeded(s.now)];
    var s3 := Goto(s2.(readers := {t}), t, Rereading);
    var s4 := Goto(s2, t, Answered(Closed, |s2.log|, s.now));
    ReachesStep(s, s2, Move(t), s.now, s3);
    ReachesStep(s, s3, Move(t), s.now, s4);
    assert s4.calls.Keys == s.calls.Keys;
  }

  /** Thread u records k failures at once on a new breaker, while nobody else moves. */
  lemma {:induction false} FailuresInARow(s: State, t: Tid, u: Tid, k: nat) returns (s': State)
    requires Init(s) && s.initial.threshold == 5 && t != u && t in s.calls && u in s.calls && k <= 5
    ensures Reaches(s, s') && s'.now == s.now && s'.writer.None? && s'.readers == {}
    ensures t in s'.calls && u in s'.calls && Resting(s'.calls[t].pc) && Resting(s'.calls[u].pc)
    ensures s'.b.failureCount == k && s'.b.threshold == 5 && s'.b.timeout == s.initial.timeout
    ensures if k < 5 then s'.b.state.Closed? else s'.b.state.Open? && s'.b.lastFail == s.now
  {
    if k == 0 {
      assert |[s]| > 0 && [s][0] == s;
      s' := s;
    } else {
      var before := FailuresInARow(s, t, u, k - 1);
      RecordSection(s, before, u, Failed(s.now));
      s' := Write(before, Failed(s.now)).(calls := before.calls[u := Call(Idle, |before.log|, s.now)]);
    }
  }

  /** Such a state is reached with a breaker as createClient builds it: five failures, and 31 seconds later a success. */
  lemma RipeIsReachable(s: State, t: Tid, u: Tid, zero: Time)
    requires Init(s) && s.initial == NewBreaker(zero) && t != u && t in s.calls && u in s.calls
    ensures exists s' :: Reaches(s, s') && Ripe(s', t, u)
  {
    var open := FailuresInARow(s, t, u, 5);
    var e := Succeeded(s.now + 31 * SECOND);
    RecordSection(s, open, u, e);
    assert Ripe(Write(open, e).(now := e.at, calls := open.calls[u := Call(Idle, |open.log|, e.at)]), t, u);
  }
}
