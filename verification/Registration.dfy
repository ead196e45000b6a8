/**
  Service registration and its heartbeat, step by step.

  Any number of client threads call Register, Deregister and UpdateHealth; Register starts a
  heartbeat goroutine, which Deregister stops over two unbuffered channels. One mutex protects
  the registration; the Redis key of this instance carries a 30 second expiry. A step is one
  locked access, one Redis command, or one rendezvous on a channel.
 */
module Registration {
  import opened Common

  const TTL: Time := 30 * SECOND
  const PERIOD: Time := 15 * SECOND
  const BEAT_DEADLINE: Time := 5 * SECOND

  type Tid = nat
  type Gid = nat

  /** Where a client thread stands in its call; every state from `...Check` on holds the mutex. */
  datatype ClientPc =
    | Idle
    | RLock | RCheck | RPing | RWrite | RAdd | RFlag | RSpawn
    | DLock | DCheck | DSend | DWait | DDel | DRem(gone: bool) | DClear(gone: bool)
    | HLock(health: string) | HCheck(health: string) | HWrite
    | Unlock

  /** Where a heartbeat goroutine stands. `Signalling` has received the stop and sends done. */
  datatype HeartPc = Starting | Selecting | Locking | Checking | Writing | Releasing | Signalling

  /** `due` is the instant of the ticker's next tick. */
  datatype Heart = Heart(pc: HeartPc, due: Time)

  datatype Owner = Nobody | Client(t: Tid) | Beat(g: Gid)

  datatype Reg = Reg(health: string, lastHeartbeat: Time)

  datatype Writer = ByRegister | ByUpdate | ByBeat

  datatype Key = Absent | Present(value: Reg, writtenAt: Time, author: Writer)

  /** `writes` records the instants at which this instance wrote its key. */
  datatype State = State(
    now: Time,
    mu: Owner,
    isRegistered: bool,
    reg: Reg,
    clients: map<Tid, ClientPc>,
    hearts: map<Gid, Heart>,
    nextHeart: Gid,
    key: Key,
    writes: seq<Time>)

  /** A Redis command succeeds, fails without effect, or takes effect although an error is reported. */
  datatype Outcome = Done | Lost | LateError

  datatype Action =
    | CallRegister(t: Tid) | CallDeregister(t: Tid) | CallUpdate(t: Tid, health: string)
    | Move(t: Tid, o: Outcome)
    | Tick(g: Gid)
    | Pulse(g: Gid, o: Outcome)
    | Stop(t: Tid, g: Gid)
    | Finish(t: Tid, g: Gid)

  predicate InSection(pc: ClientPc) {
    !(pc.Idle? || pc.RLock? || pc.DLock? || pc.HLock?)
  }

  predicate BeatInSection(pc: HeartPc) {
    pc.Checking? || pc.Writing? || pc.Releasing?
  }

  predicate WantsLock(pc: ClientPc) {
    pc.RLock? || pc.DLock? || pc.HLock?
  }

  predicate Enabled(s: State, a: Action, now: Time) {
    match a
    case CallRegister(t) => t in s.clients && s.clients[t].Idle?
    case CallDeregister(t) => t in s.clients && s.clients[t].Idle?
    case CallUpdate(t, _) => t in s.clients && s.clients[t].Idle?
    case Move(t, _) =>
      && t in s.clients
      && !s.clients[t].Idle? && !s.clients[t].DSend? && !s.clients[t].DWait?
      && (WantsLock(s.clients[t]) ==> s.mu.Nobody?)
    case Tick(g) => g in s.hearts && s.hearts[g].pc.Selecting? && now >= s.hearts[g].due
    case Pulse(g, _) =>
      && g in s.hearts
      && !s.hearts[g].pc.Selecting? && !s.hearts[g].pc.Signalling?
      && (s.hearts[g].pc.Locking? ==> s.mu.Nobody?)
    case Stop(t, g) => t in s.clients && g in s.hearts && s.clients[t].DSend? && s.hearts[g].pc.Selecting?
    case Finish(t, g) => t in s.clients && g in s.hearts && s.clients[t].DWait? && s.hearts[g].pc.Signalling?
  }

  /** SETEX with the registration as it stands in memory. */
  function SetEx(s: State, o: Outcome, w: Writer): State {
    if o.Lost? then s else s.(key := Present(s.reg, s.now, w), writes := s.writes + [s.now])
  }

  function Goto(s: State, t: Tid, pc: ClientPc): State {
    s.(clients := s.clients[t := pc])
  }

  /** Where a client goes from `pc` when its next step has outcome `o`. */
  function NextPc(s: State, pc: ClientPc, o: Outcome): ClientPc {
    match pc
    case RLock => RCheck
    case RCheck => if s.isRegistered then Unlock else RPing
    case RPing => if o.Done? then RWrite else Unlock
    case RWrite => if o.Done? then RAdd else Unlock
    case RAdd => RFlag
    case RFlag => RSpawn
    case RSpawn => Unlock
    case DLock => DCheck
    case DCheck => if s.isRegistered then DSend else Unlock
    case DDel => DRem(!o.Lost?)
    case DRem(gone) => DClear(gone)
    case DClear(_) => Unlock
    case HLock(h) => HCheck(h)
    case HCheck(_) => if s.isRegistered then HWrite else Unlock
    case HWrite => Unlock
    case Unlock => Idle
    case _ => pc
  }

  /** What that step does to everything but the client itself. */
  function Effect(s: State, t: Tid, pc: ClientPc, o: Outcome): State {
    match pc
    case RLock => s.(mu := Client(t))
    case DLock => s.(mu := Client(t))
    case HLock(_) => s.(mu := Client(t))
    case RWrite => SetEx(s, o, ByRegister)
    case RFlag => s.(isRegistered := true)
    case RSpawn => s.(hearts := s.hearts[s.nextHeart := Heart(Starting, s.now)], nextHeart := s.nextHeart + 1)
    case DDel => if o.Lost? then s else s.(key := Absent)
    case DClear(_) => s.(isRegistered := false)
    case HCheck(h) => if s.isRegistered then s.(reg := Reg(h, s.now)) else s
    case HWrite => SetEx(s, o, ByUpdate)
    case Unlock => s.(mu := Nobody)
    case _ => s
  }

  function MoveClient(s: State, t: Tid, o: Outcome): State
    requires t in s.clients
  {
    Goto(Effect(s, t, s.clients[t], o), t, NextPc(s, s.clients[t], o))
  }

  function SetHeart(s: State, g: Gid, h: Heart): State {
    s.(hearts := s.hearts[g := h])
  }

  function PulseHeart(s: State, g: Gid, o: Outcome): State
    requires g in s.hearts
  {
    var h := s.hearts[g];
    match h.pc
    case Starting => SetHeart(s, g, Heart(Selecting, s.now + PERIOD))
    case Locking => SetHeart(s.(mu := Beat(g)), g, h.(pc := Checking))
    case Checking =>
      if s.isRegistered then SetHeart(s.(reg := s.reg.(lastHeartbeat := s.now)), g, h.(pc := Writing))
      else SetHeart(s, g, h.(pc := Releasing))
    case Writing => SetHeart(SetEx(s, o, ByBeat), g, Heart(Releasing, h.due + PERIOD))
    case Releasing => SetHeart(s.(mu := Nobody), g, h.(pc := Selecting))
    case _ => s
  }

  function Do(s0: State, a: Action, now: Time): State
    requires Enabled(s0, a, now)
  {
    var s := s0.(now := now);
    match a
    case CallRegister(t) => Goto(s, t, RLock)
    case CallDeregister(t) => Goto(s, t, DLock)
    case CallUpdate(t, h) => Goto(s, t, HLock(h))
    case Move(t, o) => MoveClient(s, t, o)
    case Tick(g) => SetHeart(s, g, s.hearts[g].(pc := Locking))
    case Pulse(g, o) => PulseHeart(s, g, o)
    case Stop(t, g) => SetHeart(Goto(s, t, DWait), g, s.hearts[g].(pc := Signalling))
    case Finish(t, g) => Goto(s.(hearts := s.hearts - {g}), t, DDel)
  }

  ghost predicate Next(s: State, s': State) {
    exists a, now :: Enabled(s, a, now) && now >= s.now && s' == Do(s, a, now)
  }

  ghost predicate Init(s: State) {
    && s.mu.Nobody? && !s.isRegistered && s.hearts == map[] && s.key.Absent? && s.writes == []
    && s.reg == Reg("healthy", s.now)
    && forall t :: t in s.clients ==> s.clients[t].Idle?
  }

  /** A sequence of steps from any state. */
  ghost predicate IsPath(path: seq<State>) {
    |path| > 0 && forall i :: 0 <= i < |path| - 1 ==> Next(path[i], path[i + 1])
  }

  ghost predicate IsRun(run: seq<State>) {
    IsPath(run) && Init(run[0])
  }

  // ---- what every step keeps ----

  /** The client that holds the mutex, by what it is doing. */
  function Holder(s: State): ClientPc {
    if s.mu.Client? && s.mu.t in s.clients then s.clients[s.mu.t] else Idle
  }

  ghost predicate MutexOk(s: State) {
    && (forall t :: t in s.clients && InSection(s.clients[t]) ==> s.mu == Client(t))
    && (s.mu.Client? ==> s.mu.t in s.clients && InSection(s.clients[s.mu.t]))
    && (forall g :: g in s.hearts && BeatInSection(s.hearts[g].pc) ==> s.mu == Beat(g))
    && (s.mu.Beat? ==> s.mu.g in s.hearts && BeatInSection(s.hearts[s.mu.g].pc))
  }

  ghost predicate OneHeart(s: State) {
    && (forall g, h :: g in s.hearts && h in s.hearts ==> g == h)
    && (forall g :: g in s.hearts ==> g < s.nextHeart)
  }

  predicate Alive(s: State) {
    s.hearts.Keys != {}
  }

  /** Between setting the flag and starting the goroutine, and between its end and clearing the flag. */
  predicate Handover(pc: ClientPc) {
    pc.RSpawn? || pc.DDel? || pc.DRem? || pc.DClear?
  }

  predicate Registering(pc: ClientPc) {
    pc.RPing? || pc.RWrite? || pc.RAdd? || pc.RFlag?
  }

  ghost predicate PhaseOk(s: State) {
    && (if Handover(Holder(s)) then s.isRegistered && !Alive(s) else s.isRegistered <==> Alive(s))
    && (Registering(Holder(s)) ==> !s.isRegistered)
    && (Holder(s).DSend? || Holder(s).DWait? || Holder(s).HWrite? ==> s.isRegistered)
    && (forall g :: g in s.hearts ==> (s.hearts[g].pc.Signalling? <==> Holder(s).DWait?))
  }

  ghost predicate KeyOk(s: State) {
    && (s.key.Present? ==> |s.writes| > 0 && s.key.writtenAt == s.writes[|s.writes| - 1])
    && (forall i :: 0 <= i < |s.writes| ==> s.writes[i] <= s.now)
    && (Holder(s) == DRem(true) || Holder(s) == DClear(true) ==> s.key.Absent?)
  }

  ghost predicate Inv(s: State) {
    MutexOk(s) && OneHeart(s) && PhaseOk(s) && KeyOk(s)
  }

  lemma MutexKeptByMove(s: State, a: Action, now: Time)
    requires a.Move?
    requires MutexOk(s) && OneHeart(s) && PhaseOk(s) && Enabled(s, a, now)
    ensures MutexOk(Do(s, a, now))
  {
  }

  lemma MutexKeptByPulse(s: State, a: Action, now: Time)
    requires a.Pulse?
    requires MutexOk(s) && OneHeart(s) && PhaseOk(s) && Enabled(s, a, now)
    ensures MutexOk(Do(s, a, now))
  {
  }

  lemma MutexKeptByOther(s: State, a: Action, now: Time)
    requires !a.Move? && !a.Pulse?
    requires MutexOk(s) && OneHeart(s) && PhaseOk(s) && Enabled(s, a, now)
    ensures MutexOk(Do(s, a, now))
  {
  }

  lemma MutexKept(s: State, a: Action, now: Time)
    requires MutexOk(s) && OneHeart(s) && PhaseOk(s) && Enabled(s, a, now)
    ensures MutexOk(Do(s, a, now))
  {
    hide Do, Enabled, MutexOk, OneHeart, PhaseOk;
    if a.Move? {
      MutexKeptByMove(s, a, now);
    } else if a.Pulse? {
      MutexKeptByPulse(s, a, now);
    } else {
      MutexKeptByOther(s, a, now);
    }
  }

  lemma OneHeartKept(s: State, a: Action, now: Time)
    requires MutexOk(s) && OneHeart(s) && PhaseOk(s) && Enabled(s, a, now)
    ensures OneHeart(Do(s, a, now))
  {
  }

  lemma PhaseKeptByMove(s: State, a: Action, now: Time)
    requires a.Move?
    requires MutexOk(s) && OneHeart(s) && PhaseOk(s) && Enabled(s, a, now)
    ensures PhaseOk(Do(s, a, now))
  {
    var s' := Do(s, a, now);
    if s.clients[a.t].RSpawn? {
      assert s.nextHeart in s'.hearts.Keys;
    } else {
      assert s'.hearts == s.hearts;
    }
  }

  lemma PhaseKeptByHeart(s: State, a: Action, now: Time)
    requires a.Pulse? || a.Tick?
    requires MutexOk(s) && OneHeart(s) && PhaseOk(s) && Enabled(s, a, now)
    ensures PhaseOk(Do(s, a, now))
  {
    assert a.g in Do(s, a, now).hearts.Keys && a.g in s.hearts.Keys;
  }

  lemma PhaseKeptByOther(s: State, a: Action, now: Time)
    requires !a.Move? && !a.Pulse? && !a.Tick?
    requires MutexOk(s) && OneHeart(s) && PhaseOk(s) && Enabled(s, a, now)
    ensures PhaseOk(Do(s, a, now))
  {
    var s' := Do(s, a, now);
    if a.Finish? {
      assert s'.hearts.Keys == {};
    } else if a.Stop? {
      assert a.g in s'.hearts.Keys && a.g in s.hearts.Keys;
    } else {
      assert s'.hearts == s.hearts;
    }
  }

  lemma PhaseKept(s: State, a: Action, now: Time)
    requires MutexOk(s) && OneHeart(s) && PhaseOk(s) && Enabled(s, a, now)
    ensures PhaseOk(Do(s, a, now))
  {
    hide Do, Enabled, MutexOk, OneHeart, PhaseOk;
    if a.Move? {
      PhaseKeptByMove(s, a, now);
    } else if a.Pulse? || a.Tick? {
      PhaseKeptByHeart(s, a, now);
    } else {
      PhaseKeptByOther(s, a, now);
    }
  }

  lemma KeyKeptByMove(s: State, a: Action, now: Time)
    requires a.Move? && MutexOk(s) && KeyOk(s) && Enabled(s, a, now) && now >= s.now
    ensures KeyOk(Do(s, a, now))
  {
  }

  lemma KeyKeptByOther(s: State, a: Action, now: Time)
    requires !a.Move? && MutexOk(s) && PhaseOk(s) && KeyOk(s) && Enabled(s, a, now) && now >= s.now
    ensures KeyOk(Do(s, a, now))
  {
  }

  lemma KeyKept(s: State, a: Action, now: Time)
    requires Inv(s) && Enabled(s, a, now) && now >= s.now
    ensures KeyOk(Do(s, a, now))
  {
    hide Do, Enabled, MutexOk, OneHeart, PhaseOk, KeyOk;
    if a.Move? { KeyKeptByMove(s, a, now); } else { KeyKeptByOther(s, a, now); }
  }

  lemma InvKept(s: State, a: Action, now: Time)
    requires Inv(s) && Enabled(s, a, now) && now >= s.now
    ensures Inv(Do(s, a, now))
  {
    MutexKept(s, a, now);
    OneHeartKept(s, a, now);
    PhaseKept(s, a, now);
    KeyKept(s, a, now);
  }

  lemma {:induction false} RunKeepsInv(run: seq<State>, n: nat)
    requires IsRun(run) && n < |run|
    ensures Inv(run[n])
  {
    hide Do, Enabled, Inv;
    if n > 0 {
      RunKeepsInv(run, n - 1);
      assert Next(run[n - 1], run[n]);
      var a, now :| Enabled(run[n - 1], a, now) && now >= run[n - 1].now && run[n] == Do(run[n - 1], a, now);
      InvKept(run[n - 1], a, now);
    } else {
      InitInv(run[0]);
    }
  }

  lemma InitInv(s: State)
    requires Init(s)
    ensures Inv(s)
  {
  }

  // ---- one heartbeat, alive exactly while registered ----

  /** Whenever the mutex is free there is exactly one live heartbeat if the service is registered, and none otherwise. */
  lemma OneHeartbeat(run: seq<State>, n: nat)
    requires IsRun(run) && n < |run|
    ensures |run[n].hearts| <= 1
    ensures run[n].mu.Nobody? ==> |run[n].hearts| == if run[n].isRegistered then 1 else 0
    ensures forall g :: g in run[n].hearts && run[n].hearts[g].pc.Checking? ==> run[n].isRegistered
  {
    RunKeepsInv(run, n);
    var hs := run[n].hearts;
    if hs.Keys != {} {
      var g :| g in hs;
      assert hs.Keys == {g};
    }
  }

  // ---- silence after Deregister ----

  /** Not registered, and no Register past its write. */
  ghost predicate Quiet(s: State) {
    !s.isRegistered && !Holder(s).RAdd? && !Holder(s).RFlag?
  }

  lemma QuietKept(s: State, a: Action, now: Time)
    requires Inv(s) && Quiet(s) && !Holder(s).RWrite? && Enabled(s, a, now)
    ensures var s' := Do(s, a, now);
            Quiet(s') && s'.writes == s.writes && (s'.key == s.key || s'.key.Absent?)
  {
  }

  /**
    From a quiet state on, and until some Register reaches its write, this instance does not write
    its key: an absent key stays absent, and a key left behind is gone 30 seconds after its last write.
   */
  lemma {:induction false} QuietAfterDeregister(run: seq<State>, i: nat, j: nat)
    requires IsRun(run) && i <= j < |run| && Quiet(run[i])
    requires forall k :: i <= k < j ==> !Holder(run[k]).RWrite?
    ensures Quiet(run[j]) && run[j].writes == run[i].writes
    ensures run[i].key.Absent? ==> run[j].key.Absent?
    ensures run[j].key.Present? ==> |run[i].writes| > 0 && run[j].key.writtenAt == run[i].writes[|run[i].writes| - 1]
  {
    hide Do, Enabled, Inv, Quiet;
    RunKeepsInv(run, j);
    if i < j {
      QuietAfterDeregister(run, i, j - 1);
      RunKeepsInv(run, j - 1);
      assert Next(run[j - 1], run[j]);
      var a, now :| Enabled(run[j - 1], a, now) && now >= run[j - 1].now && run[j] == Do(run[j - 1], a, now);
      QuietKept(run[j - 1], a, now);
    }
    KeyIsLastWrite(run[j]);
  }

  lemma KeyIsLastWrite(s: State)
    requires Inv(s)
    ensures s.key.Present? ==> |s.writes| > 0 && s.key.writtenAt == s.writes[|s.writes| - 1]
  {
  }

  /** The step with which Deregister clears the flag leaves a quiet state, and no key at all if DEL took effect. */
  lemma DeregisterLeavesQuiet(run: seq<State>, n: nat, t: Tid, o: Outcome, now: Time)
    requires IsRun(run) && n < |run|
    requires t in run[n].clients && run[n].clients[t].DClear?
    ensures var s' := Do(run[n], Move(t, o), now);
            Quiet(s') && s'.hearts == map[] && (run[n].clients[t].gone ==> s'.key.Absent?)
  {
    RunKeepsInv(run, n);
    assert run[n].hearts.Keys == {};
  }

  // ---- when Deregister cannot return ----

  /** Deregister holds the mutex and sends the stop while the heartbeat waits for the mutex. */
  ghost predicate Deadlocked(s: State) {
    exists t, g :: t in s.clients && g in s.hearts && s.clients[t].DSend? && s.hearts[g].pc.Locking?
  }

  /** Deregister got the mutex while the heartbeat was waiting for it. */
  ghost predicate Doomed(s: State) {
    exists t, g :: t in s.clients && g in s.hearts && (s.clients[t].DSend? || s.clients[t].DCheck?) && s.hearts[g].pc.Locking?
  }

  ghost predicate Unfinished(s: State) {
    exists t :: t in s.clients && !s.clients[t].Idle?
  }

  /** A step of the protocol itself: neither a new call nor a tick of the clock. */
  predicate Internal(a: Action) {
    a.Move? || a.Pulse? || a.Stop? || a.Finish?
  }

  ghost predicate CanStep(s: State) {
    exists a :: Internal(a) && Enabled(s, a, s.now)
  }

  function HeartRank(pc: HeartPc): nat {
    match pc
    case Starting => 1
    case Selecting => 0
    case Locking => 4
    case Checking => 3
    case Writing => 2
    case Releasing => 1
    case Signalling => 0
  }

  /** Twice the steps left to the end of the call. */
  function ClientRank(pc: ClientPc): nat {
    match pc
    case Idle => 0
    case Unlock => 2
    case RSpawn => 4
    case RFlag => 6
    case RAdd => 8
    case RWrite => 10
    case RPing => 12
    case RCheck => 14
    case RLock => 16
    case DClear(_) => 4
    case DRem(_) => 6
    case DDel => 8
    case DWait => 10
    case DSend => 12
    case DCheck => 14
    case DLock => 16
    case HWrite => 4
    case HCheck(_) => 6
    case HLock(_) => 8
  }

  ghost function BeatRank(s: State): nat {
    if s.hearts.Keys == {} then 0 else var g :| g in s.hearts; HeartRank(s.hearts[g].pc)
  }

  ghost function Rank(s: State, t: Tid): nat
    requires t in s.clients
  {
    ClientRank(s.clients[t]) + BeatRank(s) + if s.mu == Client(t) then 0 else ClientRank(Holder(s))
  }

  /** The protocol step to take so that t's call comes nearer to its end. */
  ghost function Schedule(s: State, t: Tid): Action
    requires t in s.clients
  {
    if s.mu.Client? then
      if s.hearts.Keys == {} then Move(s.mu.t, Done) else
        var g :| g in s.hearts;
        if Holder(s).DSend? then if s.hearts[g].pc.Starting? then Pulse(g, Done) else Stop(s.mu.t, g)
        else if Holder(s).DWait? then Finish(s.mu.t, g)
        else Move(s.mu.t, Done)
    else if s.mu.Beat? then Pulse(s.mu.g, Done)
    else if s.hearts.Keys == {} then Move(t, Done)
    else
      var g :| g in s.hearts;
      if s.hearts[g].pc.Locking? then Pulse(g, Done) else Move(t, Done)
  }

  lemma ScheduleEnabled(s: State, t: Tid)
    requires Inv(s) && t in s.clients && !s.clients[t].Idle? && !Deadlocked(s)
    ensures Enabled(s, Schedule(s, t), s.now) && Internal(Schedule(s, t))
  {
  }

  lemma BeatRankOf(s: State, g: Gid)
    requires OneHeart(s) && g in s.hearts
    ensures BeatRank(s) == HeartRank(s.hearts[g].pc)
  {
  }

  /** The waiting heartbeat goes first, so nobody takes the mutex in front of it. */
  lemma ScheduleAvoidsDoom(s: State, t: Tid)
    requires Inv(s) && t in s.clients && !s.clients[t].Idle? && !Doomed(s) && Enabled(s, Schedule(s, t), s.now)
    ensures !Doomed(Do(s, Schedule(s, t), s.now))
  {
    hide KeyOk;
  }

  lemma MoveDescends(s: State, t: Tid, u: Tid, s': State)
    requires Inv(s) && t in s.clients && u in s.clients && !s.clients[t].Idle?
    requires s.mu == Client(u) || (u == t && s.mu.Nobody? && WantsLock(s.clients[t]))
    requires Enabled(s, Move(u, Done), s.now) && s' == Do(s, Move(u, Done), s.now)
    ensures t in s'.clients && Rank(s', t) < Rank(s, t)
  {
    hide Do, Enabled, Inv, BeatRank, ClientRank;
    MoveShortens(s, u, s');
    MoveKeepsBeat(s, u, s');
  }

  lemma MoveShortens(s: State, u: Tid, s': State)
    requires s.mu == Client(u) || s.mu.Nobody?
    requires Enabled(s, Move(u, Done), s.now) && s' == Do(s, Move(u, Done), s.now)
    ensures u in s'.clients && s'.clients == s.clients[u := s'.clients[u]]
    ensures ClientRank(s'.clients[u]) + 2 <= ClientRank(s.clients[u])
    ensures s'.mu == Client(u) || s'.mu.Nobody?
    ensures ClientRank(Idle) == 0
  {
    NextPcShortens(s, s.clients[u]);
    hide NextPc, ClientRank;
  }

  lemma NextPcShortens(s: State, pc: ClientPc)
    requires !pc.Idle? && !pc.DSend? && !pc.DWait?
    ensures ClientRank(NextPc(s, pc, Done)) + 2 <= ClientRank(pc) && ClientRank(Idle) == 0
  {
  }

  lemma MoveKeepsBeat(s: State, u: Tid, s': State)
    requires Inv(s) && Enabled(s, Move(u, Done), s.now) && s' == Do(s, Move(u, Done), s.now)
    ensures BeatRank(s') <= BeatRank(s) + 1
  {
    if s'.hearts != s.hearts {
      OneHeartKept(s, Move(u, Done), s.now);
      assert s.clients[u].RSpawn?;
      BeatRankOf(s', s.nextHeart);
    }
  }

  lemma PulseDescends(s: State, t: Tid, g: Gid, s': State)
    requires Inv(s) && t in s.clients && g in s.hearts
    requires Enabled(s, Pulse(g, Done), s.now) && s' == Do(s, Pulse(g, Done), s.now)
    ensures t in s'.clients && Rank(s', t) < Rank(s, t)
  {
    OneHeartKept(s, Pulse(g, Done), s.now);
    BeatRankOf(s, g);
    BeatRankOf(s', g);
    hide KeyOk, BeatRank;
  }

  lemma MeetDescends(s: State, t: Tid, u: Tid, g: Gid, a: Action, s': State)
    requires Inv(s) && t in s.clients && (a == Stop(u, g) || a == Finish(u, g))
    requires Enabled(s, a, s.now) && s' == Do(s, a, s.now)
    ensures t in s'.clients && Rank(s', t) < Rank(s, t)
  {
    OneHeartKept(s, a, s.now);
    BeatRankOf(s, g);
    if a.Stop? { BeatRankOf(s', g); } else { assert s'.hearts.Keys == {}; }
    hide KeyOk, BeatRank;
    assert s.mu == Client(u) && s'.mu == Client(u);
  }

  lemma ScheduleDescends(s: State, t: Tid)
    requires Inv(s) && t in s.clients && !s.clients[t].Idle? && !Doomed(s)
    requires Enabled(s, Schedule(s, t), s.now) && Internal(Schedule(s, t))
    ensures var s' := Do(s, Schedule(s, t), s.now);
            t in s'.clients && Rank(s', t) < Rank(s, t) && !Doomed(s')
  {
    ScheduleAvoidsDoom(s, t);
    hide Do, Rank, KeyOk, Doomed;
    var a := Schedule(s, t);
    var s' := Do(s, a, s.now);
    match a
    case Move(u, o) => MoveDescends(s, t, u, s');
    case Pulse(g, o) => PulseDescends(s, t, g, s');
    case Stop(u, g) => MeetDescends(s, t, u, g, a, s');
    case Finish(u, g) => MeetDescends(s, t, u, g, a, s');
  }

  /** Progress: with an unfinished call some protocol step is enabled, except exactly in the deadlock. */
  lemma ProgressExceptDeadlock(run: seq<State>, n: nat)
    requires IsRun(run) && n < |run| && Unfinished(run[n])
    ensures CanStep(run[n]) <==> !Deadlocked(run[n])
  {
    RunKeepsInv(run, n);
    var s := run[n];
    if !Deadlocked(s) {
      var t :| t in s.clients && !s.clients[t].Idle?;
      ScheduleEnabled(s, t);
    }
  }

  ghost predicate Finishes(path: seq<State>, s: State, t: Tid) {
    && IsPath(path) && path[0] == s
    && t in path[|path| - 1].clients && path[|path| - 1].clients[t].Idle?
  }

  lemma {:induction false} CompletingPath(s: State, t: Tid)
    requires Inv(s) && t in s.clients && !Doomed(s)
    ensures exists path :: Finishes(path, s, t)
    decreases Rank(s, t)
  {
    hide Do, Enabled, Inv, Doomed, Schedule, Rank;
    if s.clients[t].Idle? {
      assert Finishes([s], s, t);
    } else {
      var a := Schedule(s, t);
      assert Enabled(s, a, s.now) && Internal(a) by { NotDeadlocked(s); ScheduleEnabled(s, t); }
      var s' := Do(s, a, s.now);
      ScheduleDescends(s, t);
      InvKept(s, a, s.now);
      CompletingPath(s', t);
      var rest :| Finishes(rest, s', t);
      assert Next(s, s');
      assert Finishes([s] + rest, s, t);
    }
  }

  lemma NotDeadlocked(s: State)
    requires !Doomed(s)
    ensures !Deadlocked(s)
  {
  }

  lemma DoomedKept(s: State, a: Action, now: Time, u: Tid, g: Gid)
    requires MutexOk(s) && OneHeart(s) && PhaseOk(s) && Enabled(s, a, now)
    requires u in s.clients && g in s.hearts && (s.clients[u].DSend? || s.clients[u].DCheck?) && s.hearts[g].pc.Locking?
    ensures Doomed(Do(s, a, now))
    ensures forall t :: t in s.clients && !s.clients[t].Idle? ==> t in Do(s, a, now).clients && !Do(s, a, now).clients[t].Idle?
  {
    var s' := Do(s, a, now);
    assert s.mu == Client(u);
    assert Alive(s);
    assert u in s'.clients && g in s'.hearts && (s'.clients[u].DSend? || s'.clients[u].DCheck?) && s'.hearts[g].pc.Locking?;
  }

  /** Once doomed, always doomed, and every unfinished call stays unfinished. */
  lemma DoomedForever(s: State, s': State)
    requires Inv(s) && Doomed(s) && Next(s, s')
    ensures Doomed(s') && Inv(s')
    ensures forall t :: t in s.clients && !s.clients[t].Idle? ==> t in s'.clients && !s'.clients[t].Idle?
  {
    hide Do, Enabled, MutexOk, OneHeart, PhaseOk, KeyOk;
    var a, now :| Enabled(s, a, now) && now >= s.now && s' == Do(s, a, now);
    InvKept(s, a, now);
    var u, g :| u in s.clients && g in s.hearts && (s.clients[u].DSend? || s.clients[u].DCheck?) && s.hearts[g].pc.Locking?;
    DoomedKept(s, a, now, u, g);
    hide Doomed;
  }

  lemma {:induction false} NoEscape(path: seq<State>, n: nat, t: Tid)
    requires IsPath(path) && n < |path| && Inv(path[0]) && Doomed(path[0])
    requires t in path[0].clients && !path[0].clients[t].Idle?
    ensures Inv(path[n]) && Doomed(path[n]) && t in path[n].clients && !path[n].clients[t].Idle?
  {
    hide Inv, Doomed, Next;
    if n > 0 {
      NoEscape(path, n - 1, t);
      DoomedForever(path[n - 1], path[n]);
    }
  }

  /**
    Exactly when a call can still return: in every reachable state an unfinished call has a
    completing continuation if and only if Deregister has not taken the mutex in front of a
    waiting heartbeat.
   */
  lemma CallCanReturn(run: seq<State>, n: nat, t: Tid)
    requires IsRun(run) && n < |run| && t in run[n].clients && !run[n].clients[t].Idle?
    ensures (exists path :: Finishes(path, run[n], t)) <==> !Doomed(run[n])
  {
    RunKeepsInv(run, n);
    if Doomed(run[n]) {
      forall path ensures !Finishes(path, run[n], t) {
        if Finishes(path, run[n], t) { NoEscape(path, |path| - 1, t); }
      }
    } else {
      CompletingPath(run[n], t);
    }
  }

  // ---- concrete runs ----

  ghost predicate Reaches(s: State, s': State) {
    exists path :: IsPath(path) && path[0] == s && path[|path| - 1] == s'
  }

  lemma ReachesStep(s0: State, s: State, a: Action, now: Time, s': State)
    requires Reaches(s0, s) && Enabled(s, a, now) && now >= s.now && s' == Do(s, a, now)
    ensures Reaches(s0, s')
  {
    hide Do, Enabled;
    var path :| IsPath(path) && path[0] == s0 && path[|path| - 1] == s;
    var longer := path + [s'];
    assert Next(s, s');
    forall i | 0 <= i < |longer| - 1 ensures Next(longer[i], longer[i + 1]) {
      if i < |path| - 1 { assert Next(path[i], path[i + 1]); }
    }
    assert IsPath(longer) && longer[0] == s0 && longer[|longer| - 1] == s';
  }

  /** The state after a Register by `t` that met no error and took no time, at instant `at`. */
  function AfterRegister(s: State, t: Tid, at: Time): State {
    s.(now := at, isRegistered := true, clients := s.clients[t := Idle],
    hearts := s.hearts[s.nextHeart := Heart(Selecting, at + PERIOD)], nextHeart := s.nextHeart + 1,
    key := Present(s.reg, at, ByRegister), writes := s.writes + [at])
  }

  /** The state in which client `t`, at `pc`, holds the mutex. */
  function Inside(s: State, t: Tid, pc: ClientPc): State {
    s.(mu := Client(t), clients := s.clients[t := pc])
  }

  lemma RegisterStarts(s: State, t: Tid, at: Time)
    requires Init(s) && t in s.clients && at >= s.now
    ensures Reaches(s, Inside(s.(now := at), t, RWrite))
  {
    var s0 := s.(now := at);
    assert IsPath([s]) && Reaches(s, s);
    ReachesStep(s, s, CallRegister(t), at, Goto(s0, t, RLock));
    ReachesStep(s, Goto(s0, t, RLock), Move(t, Done), at, Inside(s0, t, RCheck));
    ReachesStep(s, Inside(s0, t, RCheck), Move(t, Done), at, Inside(s0, t, RPing));
    ReachesStep(s, Inside(s0, t, RPing), Move(t, Done), at, Inside(s0, t, RWrite));
  }

  /** `s` at instant `at`, with its key just written. */
  function Published(s: State, at: Time): State {
    s.(now := at, key := Present(s.reg, at, ByRegister), writes := s.writes + [at])
  }

  lemma RegisterPublishes(s: State, t: Tid, at: Time)
    requires Init(s) && t in s.clients && at >= s.now
    ensures Reaches(s, Inside(Published(s, at), t, RFlag))
  {
    hide Reaches, IsPath;
    RegisterStarts(s, t, at);
    ReachesStep(s, Inside(s.(now := at), t, RWrite), Move(t, Done), at, Inside(Published(s, at), t, RAdd));
    ReachesStep(s, Inside(Published(s, at), t, RAdd), Move(t, Done), at, Inside(Published(s, at), t, RFlag));
  }

  lemma RegisterCompletes(s: State, t: Tid, at: Time)
    requires Init(s) && t in s.clients && at >= s.now
    ensures Reaches(s, AfterRegister(s, t, at))
  {
    hide Reaches, IsPath;
    var s2 := Published(s, at).(isRegistered := true);
    RegisterPublishes(s, t, at);
    ReachesStep(s, Inside(Published(s, at), t, RFlag), Move(t, Done), at, Inside(s2, t, RSpawn));
    RegisterSpawns(s, t, at, s2);
  }

  lemma RegisterSpawns(s: State, t: Tid, at: Time, s2: State)
    requires Init(s) && t in s.clients && s2 == Published(s, at).(isRegistered := true)
    requires Reaches(s, Inside(s2, t, RSpawn))
    ensures Reaches(s, AfterRegister(s, t, at))
  {
    hide Reaches, IsPath;
    var s3 := s2.(hearts := s.hearts[s.nextHeart := Heart(Starting, at)], nextHeart := s.nextHeart + 1);
    ReachesStep(s, Inside(s2, t, RSpawn), Move(t, Done), at, Inside(s3, t, Unlock));
    ReachesStep(s, Inside(s3, t, Unlock), Move(t, Done), at, s3.(clients := s.clients[t := Idle]));
    ReachesStep(s, s3.(clients := s.clients[t := Idle]), Pulse(s.nextHeart, Done), at, AfterRegister(s, t, at));
  }

  /** One thread that registers and, at the first tick, deregisters is enough to reach the deadlock. */
  lemma DeadlockIsReachable(s: State, t: Tid)
    requires Init(s) && t in s.clients
    ensures exists d :: Reaches(s, d) && Deadlocked(d)
  {
    var r, at, g := AfterRegister(s, t, s.now), s.now + PERIOD, s.nextHeart;
    RegisterCompletes(s, t, s.now);
    var w := SetHeart(r.(now := at), g, Heart(Locking, at));
    hide Reaches, AfterRegister;
    assert r.clients[t] == Idle && r.mu.Nobody? && r.isRegistered && r.now <= at && r.hearts == s.hearts[g := Heart(Selecting, at)]
      by { AfterRegisterFields(s, t, s.now); }
    ReachesStep(s, r, Tick(g), at, w);
    ReachesStep(s, w, CallDeregister(t), at, Goto(w, t, DLock));
    ReachesStep(s, Goto(w, t, DLock), Move(t, Done), at, Inside(w, t, DCheck));
    ReachesStep(s, Inside(w, t, DCheck), Move(t, Done), at, Inside(w, t, DSend));
    assert Deadlocked(Inside(w, t, DSend)) by {
      assert Inside(w, t, DSend).clients[t].DSend? && Inside(w, t, DSend).hearts[g].pc.Locking?;
    }
  }

  lemma AfterRegisterFields(s: State, t: Tid, at: Time)
    requires Init(s)
    ensures var r := AfterRegister(s, t, at);
            t in r.clients && r.clients[t] == Idle && r.mu.Nobody? && r.isRegistered && r.now == at
            && r.hearts == s.hearts[s.nextHeart := Heart(Selecting, at + PERIOD)]
  {
  }

  predicate Visible(s: State) {
    s.key.Present? && s.now < s.key.writtenAt + TTL
  }

  /** The age of a heartbeat from which discovery calls a service stale. */
  const STALE_AFTER: Time := 60 * SECOND

  /** What a Register publishes, unless its SETEX is lost: the registration in memory, visible for exactly 30 seconds. */
  lemma RegisterPublishesMemory(s: State, t: Tid, o: Outcome, now: Time, later: Time)
    requires t in s.clients && s.clients[t].RWrite? && !o.Lost? && now <= later
    requires Enabled(s, Move(t, o), now)
    ensures var s' := Do(s, Move(t, o), now).(now := later);
            (Visible(s') <==> later < now + 30_000_000_000) && s'.key == Present(s.reg, now, ByRegister)
  {
  }

  /** Until the service is registered for the first time nobody touches the registration in memory. */
  lemma {:induction false} MemoryUntouched(run: seq<State>, n: nat)
    requires IsRun(run) && n < |run| && forall k :: 0 <= k < n ==> !run[k].isRegistered
    ensures run[n].reg == Reg("healthy", run[0].now)
  {
    if n > 0 {
      MemoryUntouched(run, n - 1);
      assert Next(run[n - 1], run[n]);
      var a, now :| Enabled(run[n - 1], a, now) && now >= run[n - 1].now && run[n] == Do(run[n - 1], a, now);
    }
  }

  /**
    A first Register publishes the heartbeat instant of construction: at every instant in the life
    of its key, the key is stale if and only if more than a minute has passed since construction.
   */
  lemma FirstRegisterIsStaleExactly(run: seq<State>, n: nat, t: Tid, o: Outcome, now: Time, later: Time)
    requires IsRun(run) && n < |run| && forall k :: 0 <= k < n ==> !run[k].isRegistered
    requires t in run[n].clients && run[n].clients[t].RWrite? && !o.Lost? && run[n].now <= now <= later < now + TTL
    ensures Enabled(run[n], Move(t, o), now)
    ensures var s' := Do(run[n], Move(t, o), now).(now := later);
            Visible(s') && (s'.now - s'.key.value.lastHeartbeat > 60_000_000_000 <==> later - run[0].now > 60_000_000_000)
  {
    MemoryUntouched(run, n);
    RegisterPublishesMemory(run[n], t, o, now, later);
  }

  // ---- what a call and a beat write ----

  /** A client that is done changes nothing any more but the mutex. */
  lemma NothingAfterUnlock(s: State, t: Tid, o: Outcome)
    requires t in s.clients && (s.clients[t].Unlock? || s.clients[t].Idle?)
    ensures var s' := MoveClient(s, t, o);
            && t in s'.clients && s'.clients[t].Idle?
            && s'.isRegistered == s.isRegistered && s'.hearts == s.hearts && s'.key == s.key && s'.reg == s.reg
  {
  }

  /** From the service list on Register cannot fail: SADD's error is only logged. */
  lemma RegisterFromAdd(s: State, t: Tid, add: Outcome, o: Outcome)
    requires t in s.clients && s.clients[t].RAdd?
    ensures var b := MoveClient(MoveClient(MoveClient(MoveClient(s, t, add), t, o), t, o), t, o);
            && t in b.clients && b.clients[t].Idle? && b.isRegistered && b.key == s.key && b.reg == s.reg
            && b.hearts == s.hearts[s.nextHeart := Heart(Starting, s.now)]
  {
  }

  /**
    A Register that got past its check, by itself: it ends registered, with a heartbeat started, if
    and only if PING and SETEX report success, whatever SADD reports; and it has written the key if
    and only if PING succeeded and SETEX was not lost.
   */
  lemma RegisterSucceedsExactly(s: State, t: Tid, ping: Outcome, write: Outcome, add: Outcome, o: Outcome)
    requires t in s.clients && s.clients[t].RPing? && !s.isRegistered
    ensures var a := MoveClient(MoveClient(s, t, ping), t, write);
            var b := MoveClient(MoveClient(MoveClient(MoveClient(a, t, add), t, o), t, o), t, o);
            && t in b.clients && b.clients[t].Idle? && (b.isRegistered <==> ping.Done? && write.Done?)
            && b.hearts == (if ping.Done? && write.Done? then s.hearts[s.nextHeart := Heart(Starting, s.now)] else s.hearts)
            && b.key == (if ping.Done? && !write.Lost? then Present(s.reg, s.now, ByRegister) else s.key)
            && b.reg == s.reg
  {
    var p := MoveClient(s, t, ping);
    if !ping.Done? { NothingAfterUnlock(p, t, write); }
    var a := MoveClient(p, t, write);
    if ping.Done? && write.Done? {
      assert a.clients[t].RAdd? && a.hearts == s.hearts && a.nextHeart == s.nextHeart && a.now == s.now && a.reg == s.reg;
      assert a.key == Present(s.reg, s.now, ByRegister);
      hide MoveClient;
      RegisterFromAdd(a, t, add, o);
    } else {
      assert a.clients[t].Unlock? || a.clients[t].Idle?;
      hide MoveClient;
      NothingAfterUnlock(a, t, add);
      NothingAfterUnlock(MoveClient(a, t, add), t, o);
      NothingAfterUnlock(MoveClient(MoveClient(a, t, add), t, o), t, o);
      NothingAfterUnlock(MoveClient(MoveClient(MoveClient(a, t, add), t, o), t, o), t, o);
    }
  }

  /** A Deregister whose heartbeat has ended clears the flag whatever DEL and SREM report, and the key is gone unless DEL was lost. */
  lemma DeregisterClears(s: State, t: Tid, del: Outcome, rem: Outcome, o: Outcome)
    requires t in s.clients && s.clients[t].DDel? && s.mu == Client(t)
    ensures var b := MoveClient(MoveClient(MoveClient(s, t, del), t, rem), t, o);
            && !b.isRegistered && b.clients[t].Unlock? && b.hearts == s.hearts
            && b.key == if del.Lost? then s.key else Absent
  {
  }

  /** An UpdateHealth by itself publishes the very health it was called with, and the instant at which it got to write it. */
  lemma UpdatePublishes(s: State, t: Tid, h: string, at: Time, w: Time, o1: Outcome, o2: Outcome)
    requires t in s.clients && s.clients[t] == HCheck(h) && s.isRegistered && at <= w
    ensures Enabled(s, Move(t, o1), at) && Enabled(Do(s, Move(t, o1), at), Move(t, o2), w)
    ensures var s' := Do(Do(s, Move(t, o1), at), Move(t, o2), w);
            s'.reg == Reg(h, at) && s'.key == if o2.Lost? then s.key else Present(Reg(h, at), w, ByUpdate)
  {
  }

  /** A beat by itself publishes the health as it stands and its own instant; the next tick is 15 seconds after the last one. */
  lemma BeatPublishes(s: State, g: Gid, at: Time, w: Time, o1: Outcome, o2: Outcome)
    requires g in s.hearts && s.hearts[g].pc.Checking? && s.isRegistered && at <= w
    ensures Enabled(s, Pulse(g, o1), at) && Enabled(Do(s, Pulse(g, o1), at), Pulse(g, o2), w)
    ensures var s' := Do(Do(s, Pulse(g, o1), at), Pulse(g, o2), w);
            && s'.reg == Reg(s.reg.health, at)
            && s'.key == (if o2.Lost? then s.key else Present(Reg(s.reg.health, at), w, ByBeat))
            && s'.hearts[g].due == s.hearts[g].due + 15_000_000_000
  {
  }

  /** The first tick is 15 seconds after the goroutine starts, and a tick is taken once it is due. */
  lemma FirstTick(s: State, g: Gid, o: Outcome, at: Time, later: Time)
    requires g in s.hearts && s.hearts[g].pc.Starting?
    ensures Enabled(s, Pulse(g, o), at)
    ensures Enabled(Do(s, Pulse(g, o), at), Tick(g), later) <==> later >= at + 15_000_000_000
  {
  }

  /** A call of UpdateHealth(h) that began at `since` and has not returned. */
  ghost predicate Updating(s: State, t: Tid, h: string, since: Time) {
    && t in s.clients && since <= s.now
    && match s.clients[t]
       case HLock(x) => x == h
       case HCheck(x) => x == h
       case HWrite => s.reg.health == h && since <= s.reg.lastHeartbeat <= s.now
       case Unlock => true
       case _ => false
  }

  lemma UpdatingKept(s: State, a: Action, now: Time, t: Tid, h: string, since: Time)
    requires MutexOk(s) && Updating(s, t, h, since) && Enabled(s, a, now) && now >= s.now
    ensures Updating(Do(s, a, now), t, h, since) || (t in Do(s, a, now).clients && Do(s, a, now).clients[t].Idle?)
  {
  }

  lemma UpdateBegins(s: State, t: Tid, h: string, now: Time)
    requires Enabled(s, CallUpdate(t, h), now)
    ensures Updating(Do(s, CallUpdate(t, h), now), t, h, now)
  {
  }

  /** State `i` of the run is where t calls UpdateHealth(h) at `since`, and the call lasts up to state `j` at least. */
  ghost predicate UpdateLasts(run: seq<State>, i: nat, j: nat, t: Tid, h: string, since: Time) {
    && i < j < |run| && Enabled(run[i], CallUpdate(t, h), since) && since >= run[i].now && run[i + 1] == Do(run[i], CallUpdate(t, h), since)
    && forall k :: i < k <= j && t in run[k].clients ==> !run[k].clients[t].Idle?
  }

  lemma {:induction false} UpdatingAlways(run: seq<State>, i: nat, j: nat, t: Tid, h: string, since: Time)
    requires IsRun(run) && UpdateLasts(run, i, j, t, h, since)
    ensures Updating(run[j], t, h, since)
  {
    hide Do, Enabled, Inv, Updating;
    if j == i + 1 {
      UpdateBegins(run[i], t, h, since);
    } else {
      UpdatingAlways(run, i, j - 1, t, h, since);
      RunKeepsInv(run, j - 1);
      assert Next(run[j - 1], run[j]);
      var a, now :| Enabled(run[j - 1], a, now) && now >= run[j - 1].now && run[j] == Do(run[j - 1], a, now);
      MutexOfInv(run[j - 1]);
      UpdatingKept(run[j - 1], a, now, t, h, since);
    }
  }

  lemma MutexOfInv(s: State)
    requires Inv(s)
    ensures MutexOk(s)
  {
  }

  /**
    In every interleaving, whatever a call of UpdateHealth(h) writes carries h, and a heartbeat
    instant between the call and the write.
   */
  lemma UpdateWritesItsHealth(run: seq<State>, i: nat, j: nat, t: Tid, h: string, since: Time, o: Outcome, w: Time) returns (at: Time)
    requires IsRun(run) && UpdateLasts(run, i, j, t, h, since)
    requires t in run[j].clients && run[j].clients[t].HWrite? && w >= run[j].now && !o.Lost?
    ensures since <= at <= w && Enabled(run[j], Move(t, o), w)
    ensures Do(run[j], Move(t, o), w).key == Present(Reg(h, at), w, ByUpdate)
  {
    UpdatingAlways(run, i, j, t, h, since);
    at := run[j].reg.lastHeartbeat;
  }

  /** A state reached from an initial one is the last of some run. */
  lemma ReachesRun(s: State, s': State) returns (run: seq<State>)
    requires Reaches(s, s') && Init(s)
    ensures IsRun(run) && run[0] == s && run[|run| - 1] == s'
  {
    run :| IsPath(run) && run[0] == s && run[|run| - 1] == s';
  }

  /** For every instant `at` there is a run that registers then, and its key is stale if and only if that is more than a minute late. */
  lemma RegisterMayPublishStale(s: State, t: Tid, at: Time)
    requires Init(s) && t in s.clients && at >= s.now
    ensures Reaches(s, AfterRegister(s, t, at))
    ensures var d := AfterRegister(s, t, at);
            d.isRegistered && Visible(d) && (d.now - d.key.value.lastHeartbeat > 60_000_000_000 <==> at - s.now > 60_000_000_000)
  {
    RegisterCompletes(s, t, at);
    RegisterPublishesMemory(Inside(s.(now := at), t, RWrite), t, Done, at, at);
    assert AfterRegister(s, t, at).key == Present(s.reg, at, ByRegister);
  }

  // ---- the key stays alive ----

  /** How long a heartbeat may take to start after the key was last written. */
  const START_SLACK: Time := TTL - PERIOD - BEAT_DEADLINE

  /** No beat is overdue at `now`: each tick's write is done within five seconds of its tick. */
  ghost predicate OnTime(s: State, now: Time) {
    forall g :: g in s.hearts && !s.hearts[g].pc.Signalling? ==>
      if s.hearts[g].pc.Starting? then |s.writes| > 0 ==> now < s.writes[|s.writes| - 1] + START_SLACK
      else now <= s.hearts[g].due + BEAT_DEADLINE
  }

  /** Every heartbeat's write takes effect. */
  ghost predicate BeatsTakeEffect(s: State, s': State) {
    forall g :: g in s.hearts && g in s'.hearts && s.hearts[g].pc.Writing? && s'.hearts[g].pc.Releasing? ==>
      s'.key == Present(s.reg, s'.now, ByBeat)
  }

  ghost predicate Timely(run: seq<State>) {
    forall i :: 0 <= i < |run| - 1 ==> OnTime(run[i], run[i + 1].now) && BeatsTakeEffect(run[i], run[i + 1])
  }

  /** A live heartbeat's key was written recently enough to outlast the next beat. */
  ghost predicate KeyOutlasts(s: State) {
    && (Holder(s).RAdd? || Holder(s).RFlag? || Holder(s).RSpawn? ==> s.key.Present?)
    && (forall g :: g in s.hearts && !s.hearts[g].pc.Signalling? ==>
          && s.key.Present?
          && (s.hearts[g].pc.Locking? || s.hearts[g].pc.Checking? || s.hearts[g].pc.Writing? ==> s.hearts[g].due <= s.now)
          && (!s.hearts[g].pc.Starting? ==> s.hearts[g].due + BEAT_DEADLINE < s.key.writtenAt + TTL))
  }

  lemma KeyOutlastsKeptByMove(s: State, a: Action, now: Time)
    requires a.Move?
    requires Inv(s) && KeyOutlasts(s) && Enabled(s, a, now) && now >= s.now
    requires OnTime(s, now) && BeatsTakeEffect(s, Do(s, a, now))
    ensures KeyOutlasts(Do(s, a, now))
  {
  }

  lemma KeyOutlastsKeptByPulse(s: State, a: Action, now: Time)
    requires a.Pulse?
    requires Inv(s) && KeyOutlasts(s) && Enabled(s, a, now) && now >= s.now
    requires OnTime(s, now) && BeatsTakeEffect(s, Do(s, a, now))
    ensures KeyOutlasts(Do(s, a, now))
  {
  }

  lemma KeyOutlastsKeptByOther(s: State, a: Action, now: Time)
    requires !a.Move? && !a.Pulse?
    requires Inv(s) && KeyOutlasts(s) && Enabled(s, a, now) && now >= s.now
    requires OnTime(s, now) && BeatsTakeEffect(s, Do(s, a, now))
    ensures KeyOutlasts(Do(s, a, now))
  {
  }

  lemma KeyOutlastsKept(s: State, a: Action, now: Time)
    requires Inv(s) && KeyOutlasts(s) && Enabled(s, a, now) && now >= s.now
    requires OnTime(s, now) && BeatsTakeEffect(s, Do(s, a, now))
    ensures KeyOutlasts(Do(s, a, now))
  {
    hide Do, Enabled, Inv, KeyOutlasts, OnTime, BeatsTakeEffect;
    if a.Move? {
      KeyOutlastsKeptByMove(s, a, now);
    } else if a.Pulse? {
      KeyOutlastsKeptByPulse(s, a, now);
    } else {
      KeyOutlastsKeptByOther(s, a, now);
    }
  }

  lemma {:induction false} KeyOutlastsAlways(run: seq<State>, n: nat)
    requires IsRun(run) && Timely(run) && n < |run|
    ensures KeyOutlasts(run[n])
  {
    hide Do, Enabled, Inv, KeyOutlasts, OnTime, BeatsTakeEffect;
    if n > 0 {
      KeyOutlastsAlways(run, n - 1);
      RunKeepsInv(run, n - 1);
      assert Next(run[n - 1], run[n]);
      var a, now :| Enabled(run[n - 1], a, now) && now >= run[n - 1].now && run[n] == Do(run[n - 1], a, now);
      assert run[n].now == now by { ClockReads(run[n - 1], a, now); }
      KeyOutlastsKept(run[n - 1], a, now);
    } else {
      assert KeyOutlasts(run[0]) by { InitOutlasts(run[0]); }
    }
  }

  lemma ClockReads(s: State, a: Action, now: Time)
    requires Enabled(s, a, now)
    ensures Do(s, a, now).now == now
  {
  }

  lemma InitOutlasts(s: State)
    requires Init(s)
    ensures KeyOutlasts(s)
  {
  }

  /**
    Timed liveness of the registry key: in a timely run the key never expires from the start of
    the heartbeat to the instant Deregister stops it, in particular not while the mutex is free
    and the service registered.
   */
  lemma KeyNeverExpires(run: seq<State>, n: nat, now: Time)
    requires IsRun(run) && Timely(run) && n + 1 < |run| && run[n].now <= now <= run[n + 1].now
    requires (exists g :: g in run[n].hearts && !run[n].hearts[g].pc.Signalling?) || (run[n].mu.Nobody? && run[n].isRegistered)
    ensures run[n].key.Present? && now < run[n].key.writtenAt + 30_000_000_000
  {
    RunKeepsInv(run, n);
    KeyOutlastsAlways(run, n);
    var s := run[n];
    assert Alive(s);
    var g :| g in s.hearts && !s.hearts[g].pc.Signalling?;
    assert OnTime(s, run[n + 1].now);
  }

  /** What a heartbeat publishes was stamped after its tick, and so at most five seconds before it was written. */
  ghost predicate BeatsAreRecent(s: State) {
    && (s.key.Present? && s.key.author.ByBeat? ==> s.key.writtenAt <= s.key.value.lastHeartbeat + BEAT_DEADLINE)
    && (forall g :: g in s.hearts && s.hearts[g].pc.Writing? ==> s.hearts[g].due <= s.reg.lastHeartbeat)
  }

  lemma BeatsAreRecentKept(s: State, a: Action, now: Time)
    requires MutexOk(s) && OneHeart(s) && KeyOutlasts(s) && BeatsAreRecent(s)
    requires Enabled(s, a, now) && now >= s.now && OnTime(s, now)
    ensures BeatsAreRecent(Do(s, a, now))
  {
  }

  /** In a timely run every key written by a heartbeat carries a heartbeat instant at most five seconds older. */
  lemma {:induction false} BeatsAreRecentAlways(run: seq<State>, n: nat)
    requires IsRun(run) && Timely(run) && n < |run|
    ensures BeatsAreRecent(run[n])
  {
    hide Do, Enabled, KeyOutlasts, OnTime, BeatsTakeEffect, BeatsAreRecent;
    if n > 0 {
      BeatsAreRecentAlways(run, n - 1);
      KeyOutlastsAlways(run, n - 1);
      RunKeepsInv(run, n - 1);
      assert Next(run[n - 1], run[n]);
      var a, now :| Enabled(run[n - 1], a, now) && now >= run[n - 1].now && run[n] == Do(run[n - 1], a, now);
      ClockReads(run[n - 1], a, now);
      BeatsAreRecentKept(run[n - 1], a, now);
    } else {
      assert BeatsAreRecent(run[0]) by { InitIsRecent(run[0]); }
    }
  }

  lemma InitIsRecent(s: State)
    requires Init(s)
    ensures BeatsAreRecent(s)
  {
  }
}
