/**
  Lazy registration of metric vectors by any number of threads: look the name up under the read
  lock, and if it is missing look again under the write lock before creating and registering it.

  Every thread works through its own list of metric calls. A second registration of a name and an
  update with the wrong label names panic, as the Prometheus client does.
 */
module MetricsAdapter {
  import opened Common

  datatype Kind = Counter | Histogram | Gauge

  /** IncCounter, ObserveHistogram or SetGauge with this name and these labels. */
  datatype Call<N, L> = Call(kind: Kind, name: N, labels: L)

  /** A registered vector. */
  datatype Vec<N> = Vec(id: nat, labelNames: set<N>)

  datatype Slot<N> = Slot(kind: Kind, name: N)

  /** Which vector a kind and a name lead to: the maps counters, histograms and gauges in one. */
  type Table<N> = map<Slot<N>, Vec<N>>

  /** The vectors made so far, and the names registered by the adapter in order. */
  datatype Registry<N> = Registry(vecs: Table<N>, registered: seq<N>, nextId: nat)

  /** What never changes: label names, constant label names, names registered beforehand, each thread's calls. */
  datatype Config<N, !L> = Config(keysOf: L -> set<N>, constant: set<N>, base: set<N>, programs: seq<seq<Call<N, L>>>)

  /** Where a thread stands in its next call. */
  datatype Pc<N> =
    | Ready            // at RLock
    | Reading          // read lock held
    | Missed           // not found, at Lock
    | Creating         // write lock held, before the second look
    | Found(vec: Vec<N>)  // write lock held, after the second look
    | Got(vec: Vec<N>)    // no lock held, about to update
    | Panicked

  datatype Thread<N> = Thread(next: nat, pc: Pc<N>)

  /** How often each vector was updated with each label set. */
  type Values<L(==)> = map<(nat, L), nat>

  datatype State<N(==), L(==)> = State(
    threads: seq<Thread<N>>,
    writer: Option<nat>,
    readers: set<nat>,
    registry: Registry<N>,
    values: Values<L>,
    finished: multiset<Call<N, L>>)

  function SlotOf<N, L>(c: Call<N, L>): Slot<N> {
    Slot(c.kind, c.name)
  }

  function CallOf<N, L>(g: Config<N, L>, s: State<N, L>, i: nat): Call<N, L>
    requires i < |s.threads| && i < |g.programs| && s.threads[i].next < |g.programs[i]|
  {
    g.programs[i][s.threads[i].next]
  }

  predicate Enabled<N, L>(g: Config<N, L>, s: State<N, L>, i: nat) {
    && i < |s.threads| && i < |g.programs| && s.threads[i].next < |g.programs[i]|
    && match s.threads[i].pc
       case Ready => s.writer.None?
       case Missed => s.writer.None? && s.readers == {}
       case Panicked => false
       case _ => true
  }

  function SetPc<N, L>(s: State<N, L>, i: nat, pc: Pc<N>): State<N, L>
    requires i < |s.threads|
  {
    s.(threads := s.threads[i := s.threads[i].(pc := pc)])
  }

  /** extractLabelNames: the label names but for the constant ones. */
  function VecLabels<N(==), L>(g: Config<N, L>, c: Call<N, L>): set<N> {
    g.keysOf(c.labels) - g.constant
  }

  /** MustRegister panics on a name that is taken. */
  predicate Taken<N(==), L>(g: Config<N, L>, r: Registry<N>, c: Call<N, L>) {
    c.name in g.base || c.name in r.registered
  }

  function NewVec<N(==), L>(g: Config<N, L>, r: Registry<N>, c: Call<N, L>): Vec<N> {
    Vec(r.nextId, VecLabels(g, c))
  }

  function Extend<N(==), L>(g: Config<N, L>, r: Registry<N>, c: Call<N, L>): Registry<N> {
    Registry(r.vecs[SlotOf(c) := NewVec(g, r, c)], r.registered + [c.name], r.nextId + 1)
  }

  /** getOrCreate under one lock: the vector, and the registry with it in; None if MustRegister panics. */
  function GetOrCreate<N(==), L>(g: Config<N, L>, r: Registry<N>, c: Call<N, L>): Option<(Registry<N>, Vec<N>)> {
    if SlotOf(c) in r.vecs then Some((r, r.vecs[SlotOf(c)]))
    else if Taken(g, r, c) then None
    else Some((Extend(g, r, c), NewVec(g, r, c)))
  }

  /** The second look, and the creation if the name is still missing. */
  function Create<N(==), L>(g: Config<N, L>, s: State<N, L>, i: nat, c: Call<N, L>): State<N, L>
    requires i < |s.threads|
  {
    match GetOrCreate(g, s.registry, c)
    case Some((registry, v)) => SetPc(s.(registry := registry), i, Found(v))
    case None => SetPc(s.(writer := None), i, Panicked)
  }

  function ValueOf<L(==)>(values: Values<L>, id: nat, labels: L): nat {
    if (id, labels) in values then values[(id, labels)] else 0
  }

  function Bump<L(==)>(values: Values<L>, id: nat, labels: L): Values<L> {
    values[(id, labels) := ValueOf(values, id, labels) + 1]
  }

  /** With(labels) and the update; panics if the labels are not the vector's. */
  function Update<N(==), L(==)>(g: Config<N, L>, s: State<N, L>, i: nat, c: Call<N, L>, v: Vec<N>): State<N, L>
    requires i < |s.threads|
  {
    if g.keysOf(c.labels) != v.labelNames then SetPc(s, i, Panicked)
    else
      s.(values := Bump(s.values, v.id, c.labels),
      finished := s.finished + multiset{c},
      threads := s.threads[i := Thread(s.threads[i].next + 1, Ready)])
  }

  function Do<N(==), L(==)>(g: Config<N, L>, s: State<N, L>, i: nat): State<N, L>
    requires Enabled(g, s, i)
  {
    var c := CallOf(g, s, i);
    match s.threads[i].pc
    case Ready => SetPc(s.(readers := s.readers + {i}), i, Reading)
    case Reading =>
      SetPc(s.(readers := s.readers - {i}), i,
            if SlotOf(c) in s.registry.vecs then Got(s.registry.vecs[SlotOf(c)]) else Missed)
    case Missed => SetPc(s.(writer := Some(i)), i, Creating)
    case Creating => Create(g, s, i, c)
    case Found(v) => SetPc(s.(writer := None), i, Got(v))
    case Got(v) => Update(g, s, i, c, v)
  }

  ghost predicate Next<N, L>(g: Config<N, L>, s: State<N, L>, s': State<N, L>) {
    exists i: nat :: Enabled(g, s, i) && s' == Do(g, s, i)
  }

  ghost predicate Init<N, L>(g: Config<N, L>, s: State<N, L>) {
    && |s.threads| == |g.programs| && (forall i :: 0 <= i < |s.threads| ==> s.threads[i] == Thread(0, Ready))
    && s.writer.None? && s.readers == {} && s.registry == Registry(map[], [], 0) && s.values == map[]
    && s.finished == multiset{}
  }

  ghost predicate IsRun<N, L>(g: Config<N, L>, run: seq<State<N, L>>) {
    |run| > 0 && Init(g, run[0]) && forall i :: 0 <= i < |run| - 1 ==> Next(g, run[i], run[i + 1])
  }

  /** A call some thread makes. */
  ghost predicate Made<N, L>(g: Config<N, L>, c: Call<N, L>) {
    exists i :: 0 <= i < |g.programs| && c in g.programs[i]
  }

  /** Each name is used for one kind and one set of label names, none of them constant, and is not taken beforehand. */
  ghost predicate Consistent<N(!new), L(!new)>(g: Config<N, L>) {
    && (forall c, d :: Made(g, c) && Made(g, d) && c.name == d.name ==> c.kind == d.kind && g.keysOf(c.labels) == g.keysOf(d.labels))
    && (forall c :: Made(g, c) ==> c.name !in g.base && g.keysOf(c.labels) !! g.constant)
  }

  // ---- what every step keeps ----

  ghost predicate LocksOk<N, L>(s: State<N, L>) {
    && (forall i :: 0 <= i < |s.threads| ==> (s.threads[i].pc.Reading? <==> i in s.readers))
    && (forall i :: 0 <= i < |s.threads| ==> (s.threads[i].pc.Creating? || s.threads[i].pc.Found? <==> s.writer == Some(i)))
    && (s.writer.Some? ==> s.writer.value < |s.threads| && s.readers == {})
    && (forall i :: i in s.readers ==> i < |s.threads|)
  }

  /** The vector of a slot was made for a call with the same label names. */
  ghost predicate Justified<N(!new), L(!new)>(g: Config<N, L>, k: Slot<N>, v: Vec<N>) {
    exists c :: Made(g, c) && SlotOf(c) == k && g.keysOf(c.labels) == v.labelNames
  }

  ghost predicate IdsOk<N(!new)>(r: Registry<N>) {
    && (forall k :: k in r.vecs ==> r.vecs[k].id < r.nextId)
    && (forall j, k :: j in r.vecs && k in r.vecs && r.vecs[j].id == r.vecs[k].id ==> j == k)
  }

  /** Every vector has its own id, a registered name and a call it was made for. */
  ghost predicate VecsOk<N(!new), L(!new)>(g: Config<N, L>, r: Registry<N>) {
    && (forall k :: k in r.vecs ==> k.name in r.registered && Justified(g, k, r.vecs[k]))
    && IdsOk(r)
  }

  /** Every registered name has a vector and is registered once. */
  ghost predicate NamesOk<N(!new)>(r: Registry<N>) {
    && (forall n :: n in r.registered ==> Named(r, n))
    && (forall i, j :: 0 <= i < j < |r.registered| ==> r.registered[i] != r.registered[j])
  }

  ghost predicate TableOk<N(!new), L(!new)>(g: Config<N, L>, r: Registry<N>) {
    VecsOk(g, r) && NamesOk(r)
  }

  ghost predicate Named<N(!new)>(r: Registry<N>, n: N) {
    exists k :: k in r.vecs && k.name == n
  }

  ghost predicate ThreadOk<N, L>(program: seq<Call<N, L>>, r: Registry<N>, th: Thread<N>) {
    && th.next <= |program| && !th.pc.Panicked?
    && (!th.pc.Ready? ==> th.next < |program|)
    && (th.pc.Found? || th.pc.Got? ==> SlotOf(program[th.next]) in r.vecs && r.vecs[SlotOf(program[th.next])] == th.pc.vec)
  }

  /** What the registry exposes for a kind, a name and a label set. */
  function Exposed<N(==), L(==)>(r: Registry<N>, values: Values<L>, c: Call<N, L>): nat {
    if SlotOf(c) in r.vecs then ValueOf(values, r.vecs[SlotOf(c)].id, c.labels) else 0
  }

  ghost predicate CountsOk<N(!new), L(!new)>(s: State<N, L>) {
    && (forall c :: Exposed(s.registry, s.values, c) == s.finished[c])
    && (forall p :: p in s.values ==> p.0 < s.registry.nextId)
  }

  ghost predicate ThreadsOk<N, L>(g: Config<N, L>, s: State<N, L>) {
    && |s.threads| == |g.programs|
    && forall i :: 0 <= i < |s.threads| ==> ThreadOk(g.programs[i], s.registry, s.threads[i])
  }

  ghost predicate Inv<N(!new), L(!new)>(g: Config<N, L>, s: State<N, L>) {
    LocksOk(s) && TableOk(g, s.registry) && CountsOk(s) && ThreadsOk(g, s)
  }

  /** Vectors are never replaced. */
  ghost predicate Grown<N(!new)>(r: Registry<N>, r': Registry<N>) {
    forall k :: k in r.vecs ==> k in r'.vecs && r'.vecs[k] == r.vecs[k]
  }

  lemma LocksKept<N(!new), L(!new)>(g: Config<N, L>, s: State<N, L>, i: nat)
    requires LocksOk(s) && Enabled(g, s, i)
    ensures LocksOk(Do(g, s, i))
  {
  }

  lemma MakesCall<N(!new), L(!new)>(g: Config<N, L>, s: State<N, L>, i: nat)
    requires Enabled(g, s, i)
    ensures Made(g, CallOf(g, s, i))
  {
  }

  /** Whoever registered a name made its vector, so a name that is not found is free. */
  lemma NotFoundIsFree<N(!new), L(!new)>(g: Config<N, L>, r: Registry<N>, c: Call<N, L>)
    requires Consistent(g) && TableOk(g, r) && Made(g, c) && SlotOf(c) !in r.vecs
    ensures !Taken(g, r, c)
  {
  }

  /** Whoever made the vector used the same label names. */
  lemma FoundFits<N(!new), L(!new)>(g: Config<N, L>, r: Registry<N>, c: Call<N, L>)
    requires Consistent(g) && TableOk(g, r) && Made(g, c) && SlotOf(c) in r.vecs
    ensures g.keysOf(c.labels) == r.vecs[SlotOf(c)].labelNames
  {
  }

  lemma NamesExtended<N(!new), L(!new)>(g: Config<N, L>, r: Registry<N>, c: Call<N, L>)
    requires NamesOk(r) && !Taken(g, r, c) && SlotOf(c) !in r.vecs
    ensures NamesOk(Extend(g, r, c))
  {
  }

  lemma VecsExtended<N(!new), L(!new)>(g: Config<N, L>, r: Registry<N>, c: Call<N, L>)
    requires VecsOk(g, r) && Justified(g, SlotOf(c), NewVec(g, r, c)) && SlotOf(c) !in r.vecs
    ensures VecsOk(g, Extend(g, r, c)) && Grown(r, Extend(g, r, c))
  {
    hide Justified;
  }

  lemma TableExtended<N(!new), L(!new)>(g: Config<N, L>, r: Registry<N>, c: Call<N, L>)
    requires Consistent(g) && TableOk(g, r) && Made(g, c) && SlotOf(c) !in r.vecs
    ensures TableOk(g, Extend(g, r, c)) && Grown(r, Extend(g, r, c))
  {
    NotFoundIsFree(g, r, c);
    NewIsJustified(g, r, c);
    NamesExtended(g, r, c);
    VecsExtended(g, r, c);
  }

  lemma NewIsJustified<N(!new), L(!new)>(g: Config<N, L>, r: Registry<N>, c: Call<N, L>)
    requires Consistent(g) && Made(g, c)
    ensures Justified(g, SlotOf(c), NewVec(g, r, c))
  {
  }

  /** A new vector shows nothing yet. */
  lemma CountsExtended<N(!new), L(!new)>(g: Config<N, L>, s: State<N, L>, s': State<N, L>, c: Call<N, L>)
    requires CountsOk(s) && SlotOf(c) !in s.registry.vecs
    requires s'.registry == Extend(g, s.registry, c) && s'.values == s.values && s'.finished == s.finished
    ensures CountsOk(s')
  {
  }

  /** One more update of one vector shows for that kind, name and label set and no other. */
  lemma ExposedAfterBump<N(!new), L(!new)>(r: Registry<N>, values: Values<L>, c: Call<N, L>, d: Call<N, L>)
    requires IdsOk(r) && SlotOf(c) in r.vecs
    ensures Exposed(r, Bump(values, r.vecs[SlotOf(c)].id, c.labels), d) == Exposed(r, values, d) + if c == d then 1 else 0
  {
  }

  lemma CountsUpdated<N(!new), L(!new)>(s: State<N, L>, s': State<N, L>, c: Call<N, L>)
    requires CountsOk(s) && IdsOk(s.registry) && SlotOf(c) in s.registry.vecs
    requires s'.registry == s.registry && s'.finished == s.finished + multiset{c}
    requires s'.values == Bump(s.values, s.registry.vecs[SlotOf(c)].id, c.labels)
    ensures CountsOk(s')
  {
    forall d ensures Exposed(s'.registry, s'.values, d) == s'.finished[d] {
      hide Bump, Exposed;
      ExposedAfterBump(s.registry, s.values, c, d);
    }
  }

  lemma IdsOfTable<N(!new), L(!new)>(g: Config<N, L>, r: Registry<N>)
    requires TableOk(g, r)
    ensures IdsOk(r)
  {
  }

  /** A step changes its own thread only, so the others stay in order while the table grows. */
  lemma ThreadsKept<N(!new), L(!new)>(g: Config<N, L>, s: State<N, L>, s': State<N, L>, i: nat)
    requires ThreadsOk(g, s) && i < |s.threads| && Grown(s.registry, s'.registry)
    requires |s'.threads| == |s.threads| && s'.threads == s.threads[i := s'.threads[i]]
    requires ThreadOk(g.programs[i], s'.registry, s'.threads[i])
    ensures ThreadsOk(g, s')
  {
  }

  /** The second look: after it the name has a vector, made now or before. */
  lemma CreateKept<N(!new), L(!new)>(g: Config<N, L>, s: State<N, L>, i: nat)
    requires Consistent(g) && Inv(g, s) && Enabled(g, s, i) && s.threads[i].pc.Creating?
    ensures Inv(g, Do(g, s, i)) && Grown(s.registry, Do(g, s, i).registry)
  {
    LocksKept(g, s, i);
    MakesCall(g, s, i);
    hide LocksOk, TableOk, CountsOk, Consistent, Made;
    var c, s' := CallOf(g, s, i), Do(g, s, i);
    assert s' == Create(g, s, i, c);
    if SlotOf(c) in s.registry.vecs {
      SameCounts(s, s');
    } else {
      NotFoundIsFree(g, s.registry, c);
      TableExtended(g, s.registry, c);
      CountsExtended(g, s, s', c);
    }
    ThreadsKept(g, s, s', i);
  }

  lemma SameCounts<N(!new), L(!new)>(s: State<N, L>, s': State<N, L>)
    requires CountsOk(s) && s'.registry == s.registry && s'.values == s.values && s'.finished == s.finished
    ensures CountsOk(s')
  {
  }

  lemma UpdateKept<N(!new), L(!new)>(g: Config<N, L>, s: State<N, L>, i: nat)
    requires Consistent(g) && Inv(g, s) && Enabled(g, s, i) && s.threads[i].pc.Got?
    ensures Inv(g, Do(g, s, i)) && Grown(s.registry, Do(g, s, i).registry)
  {
    LocksKept(g, s, i);
    MakesCall(g, s, i);
    hide LocksOk, TableOk, CountsOk, Consistent, Made, Bump;
    var c, s' := CallOf(g, s, i), Do(g, s, i);
    assert ThreadOk(g.programs[i], s.registry, s.threads[i]);
    FoundFits(g, s.registry, c);
    assert s' == Update(g, s, i, c, s.threads[i].pc.vec);
    IdsOfTable(g, s.registry);
    CountsUpdated(s, s', c);
    ThreadsKept(g, s, s', i);
  }

  lemma OtherKept<N(!new), L(!new)>(g: Config<N, L>, s: State<N, L>, i: nat)
    requires Inv(g, s) && Enabled(g, s, i) && !s.threads[i].pc.Got? && !s.threads[i].pc.Creating?
    ensures Inv(g, Do(g, s, i)) && Grown(s.registry, Do(g, s, i).registry)
  {
    LocksKept(g, s, i);
    hide LocksOk, TableOk, CountsOk;
    var s' := Do(g, s, i);
    assert ThreadOk(g.programs[i], s.registry, s.threads[i]);
    SameCounts(s, s');
    ThreadsKept(g, s, s', i);
  }

  lemma InvKept<N(!new), L(!new)>(g: Config<N, L>, s: State<N, L>, s': State<N, L>)
    requires Consistent(g) && Inv(g, s) && Next(g, s, s')
    ensures Inv(g, s') && Grown(s.registry, s'.registry)
  {
    hide Do, Inv, Consistent, Grown;
    var i: nat :| Enabled(g, s, i) && s' == Do(g, s, i);
    if s.threads[i].pc.Creating? {
      CreateKept(g, s, i);
    } else if s.threads[i].pc.Got? {
      UpdateKept(g, s, i);
    } else {
      OtherKept(g, s, i);
    }
  }

  lemma InitInv<N(!new), L(!new)>(g: Config<N, L>, s: State<N, L>)
    requires Init(g, s)
    ensures Inv(g, s)
  {
  }

  lemma {:induction false} RunKeepsInv<N(!new), L(!new)>(g: Config<N, L>, run: seq<State<N, L>>, n: nat)
    requires IsRun(g, run) && Consistent(g) && n < |run|
    ensures Inv(g, run[n])
  {
    hide Inv, Consistent, Init, Next;
    if n > 0 {
      RunKeepsInv(g, run, n - 1);
      InvKept(g, run[n - 1], run[n]);
    } else {
      InitInv(g, run[0]);
    }
  }

  // ---- one vector per name ----

  ghost predicate NobodyPanicked<N, L>(s: State<N, L>) {
    forall i :: 0 <= i < |s.threads| ==> !s.threads[i].pc.Panicked?
  }

  /** In every interleaving no name is registered twice, and with names used consistently nobody panics. */
  lemma RegisteredAtMostOnce<N(!new), L(!new)>(g: Config<N, L>, run: seq<State<N, L>>, n: nat)
    requires IsRun(g, run) && Consistent(g) && n < |run|
    ensures Distinct(run[n].registry.registered)
    ensures NobodyPanicked(run[n])
  {
    RunKeepsInv(g, run, n);
    NeverRegisteredTwice(g, run, n);
    hide LocksOk, TableOk, CountsOk, Consistent, IsRun, Distinct;
    forall i | 0 <= i < |run[n].threads| ensures !run[n].threads[i].pc.Panicked? {
      assert ThreadOk(g.programs[i], run[n].registry, run[n].threads[i]);
    }
  }

  ghost predicate Distinct<N>(names: seq<N>) {
    forall i, j :: 0 <= i < j < |names| ==> names[i] != names[j]
  }

  /** Thread `i` of `s` is about to update a vector it obtained for slot `k`. */
  ghost predicate Holds<N, L>(g: Config<N, L>, s: State<N, L>, i: nat, k: Slot<N>) {
    i < |s.threads| && i < |g.programs| && s.threads[i].pc.Got? && s.threads[i].next < |g.programs[i]| && SlotOf(CallOf(g, s, i)) == k
  }

  lemma GrowsAnyway<N(!new), L(!new)>(g: Config<N, L>, s: State<N, L>, i: nat)
    requires Enabled(g, s, i)
    ensures Grown(s.registry, Do(g, s, i).registry)
  {
  }

  /** The maps only grow, whether or not names are used consistently. */
  lemma {:induction false} TableGrows<N(!new), L(!new)>(g: Config<N, L>, run: seq<State<N, L>>, m: nat, n: nat)
    requires IsRun(g, run) && m <= n < |run|
    ensures Grown(run[m].registry, run[n].registry)
  {
    hide Do, Enabled, Init;
    if m < n {
      TableGrows(g, run, m, n - 1);
      assert Next(g, run[n - 1], run[n]);
      var i: nat :| Enabled(g, run[n - 1], i) && run[n] == Do(g, run[n - 1], i);
      GrowsAnyway(g, run[n - 1], i);
    }
  }

  /** Two threads that got a vector for the same kind and name, at whatever times, got the same vector. */
  lemma SameVectorForAll<N(!new), L(!new)>(g: Config<N, L>, run: seq<State<N, L>>, m: nat, i: nat, n: nat, j: nat, k: Slot<N>)
    requires IsRun(g, run) && m <= n < |run|
    requires Holds(g, run[m], i, k) && Holds(g, run[n], j, k)
    ensures run[m].threads[i].pc.vec == run[n].threads[j].pc.vec
  {
    SoundAlways(g, run, m);
    SoundAlways(g, run, n);
    TableGrows(g, run, m, n);
    hide IsRun, Distinct, IdsOk, CountsOk;
  }

  // ---- what holds even of inconsistent names ----

  /** A thread past the lookup holds the vector of its call. */
  ghost predicate HoldsRight<N, L>(g: Config<N, L>, s: State<N, L>) {
    && |s.threads| == |g.programs|
    && forall i :: 0 <= i < |s.threads| && (s.threads[i].pc.Found? || s.threads[i].pc.Got?) ==>
         && s.threads[i].next < |g.programs[i]|
         && SlotOf(g.programs[i][s.threads[i].next]) in s.registry.vecs
         && s.registry.vecs[SlotOf(g.programs[i][s.threads[i].next])] == s.threads[i].pc.vec
  }

  lemma HoldsRightKept<N(!new), L(!new)>(g: Config<N, L>, s: State<N, L>, i: nat)
    requires HoldsRight(g, s) && Enabled(g, s, i)
    ensures HoldsRight(g, Do(g, s, i))
  {
    GrowsAnyway(g, s, i);
    var s' := Do(g, s, i);
    assert forall j :: 0 <= j < |s.threads| && j != i ==> s'.threads[j] == s.threads[j];
  }

  /** Names are registered once, vectors have their own ids, and what is exposed is what was finished. */
  ghost predicate Sound<N(!new), L(!new)>(g: Config<N, L>, s: State<N, L>) {
    Distinct(s.registry.registered) && IdsOk(s.registry) && CountsOk(s) && HoldsRight(g, s)
  }

  lemma DistinctKept<N(!new), L(!new)>(g: Config<N, L>, s: State<N, L>, i: nat)
    requires Distinct(s.registry.registered) && Enabled(g, s, i)
    ensures Distinct(Do(g, s, i).registry.registered)
  {
  }

  lemma CreateSound<N(!new), L(!new)>(g: Config<N, L>, s: State<N, L>, i: nat, c: Call<N, L>)
    requires IdsOk(s.registry) && CountsOk(s) && i < |s.threads|
    ensures IdsOk(Create(g, s, i, c).registry) && CountsOk(Create(g, s, i, c))
  {
    hide CountsOk, IdsOk;
    var s' := Create(g, s, i, c);
    if s'.registry == s.registry {
      SameCounts(s, s');
    } else {
      CountsExtended(g, s, s', c);
      IdsExtended(g, s.registry, c);
    }
  }

  lemma IdsExtended<N(!new), L(!new)>(g: Config<N, L>, r: Registry<N>, c: Call<N, L>)
    requires IdsOk(r) && SlotOf(c) !in r.vecs
    ensures IdsOk(Extend(g, r, c))
  {
  }

  lemma UpdateSound<N(!new), L(!new)>(g: Config<N, L>, s: State<N, L>, i: nat, c: Call<N, L>, v: Vec<N>)
    requires IdsOk(s.registry) && CountsOk(s) && i < |s.threads|
    requires SlotOf(c) in s.registry.vecs && s.registry.vecs[SlotOf(c)] == v
    ensures Update(g, s, i, c, v).registry == s.registry && CountsOk(Update(g, s, i, c, v))
  {
    hide CountsOk, IdsOk, Bump;
    if g.keysOf(c.labels) == v.labelNames {
      CountsUpdated(s, Update(g, s, i, c, v), c);
    } else {
      SameCounts(s, Update(g, s, i, c, v));
    }
  }

  lemma SoundKept<N(!new), L(!new)>(g: Config<N, L>, s: State<N, L>, i: nat)
    requires Sound(g, s) && Enabled(g, s, i)
    ensures Sound(g, Do(g, s, i))
  {
    DistinctKept(g, s, i);
    HoldsRightKept(g, s, i);
    hide Create, Update, Distinct, IdsOk, CountsOk;
    if s.threads[i].pc.Creating? {
      CreateSound(g, s, i, CallOf(g, s, i));
    } else if s.threads[i].pc.Got? {
      UpdateSound(g, s, i, CallOf(g, s, i), s.threads[i].pc.vec);
    } else {
      SameCounts(s, Do(g, s, i));
    }
  }

  lemma InitSound<N(!new), L(!new)>(g: Config<N, L>, s: State<N, L>)
    requires Init(g, s)
    ensures Sound(g, s)
  {
  }

  lemma {:induction false} SoundAlways<N(!new), L(!new)>(g: Config<N, L>, run: seq<State<N, L>>, n: nat)
    requires IsRun(g, run) && n < |run|
    ensures Sound(g, run[n])
  {
    hide Do, Enabled, Sound, Init;
    if n > 0 {
      SoundAlways(g, run, n - 1);
      assert Next(g, run[n - 1], run[n]);
      var i: nat :| Enabled(g, run[n - 1], i) && run[n] == Do(g, run[n - 1], i);
      SoundKept(g, run[n - 1], i);
    } else {
      InitSound(g, run[0]);
    }
  }

  /** No name is ever registered twice: whoever finds it taken panics instead. */
  lemma NeverRegisteredTwice<N(!new), L(!new)>(g: Config<N, L>, run: seq<State<N, L>>, n: nat)
    requires IsRun(g, run) && n < |run|
    ensures Distinct(run[n].registry.registered)
  {
    SoundAlways(g, run, n);
    hide IsRun, Distinct;
  }

  // ---- conservation ----

  /** How often call `c` is among the first `next` calls of a program. */
  ghost function Finished<N, L>(program: seq<Call<N, L>>, next: nat, c: Call<N, L>): nat {
    if next <= |program| then multiset(program[..next])[c] else 0
  }

  /** How often the first `n` threads have finished call `c`. */
  ghost function Total<N, L>(g: Config<N, L>, threads: seq<Thread<N>>, n: nat, c: Call<N, L>): nat
    requires n <= |threads| && n <= |g.programs|
  {
    if n == 0 then 0 else Total(g, threads, n - 1, c) + Finished(g.programs[n - 1], threads[n - 1].next, c)
  }

  lemma {:induction false} TotalUpdated<N(!new), L(!new)>(g: Config<N, L>, threads: seq<Thread<N>>, n: nat, i: nat,
                                                          th: Thread<N>, c: Call<N, L>)
    requires n <= |threads| && n <= |g.programs| && i < |threads| && i < |g.programs|
    ensures Total(g, threads[i := th], n, c)
         == Total(g, threads, n, c)
            + if i < n then Finished(g.programs[i], th.next, c) - Finished(g.programs[i], threads[i].next, c) else 0
  {
    hide Finished;
    if n > 0 { TotalUpdated(g, threads, n - 1, i, th, c); }
  }

  lemma {:induction false} TotalOfNone<N(!new), L(!new)>(g: Config<N, L>, threads: seq<Thread<N>>, n: nat, c: Call<N, L>)
    requires n <= |threads| && n <= |g.programs| && forall i :: 0 <= i < |threads| ==> threads[i].next == 0
    ensures Total(g, threads, n, c) == 0
  {
    if n > 0 { TotalOfNone(g, threads, n - 1, c); }
  }

  ghost predicate FinishedAgrees<N(!new), L(!new)>(g: Config<N, L>, s: State<N, L>) {
    |s.threads| == |g.programs| && forall c :: s.finished[c] == Total(g, s.threads, |s.threads|, c)
  }

  lemma FinishedOneMore<N(!new), L(!new)>(program: seq<Call<N, L>>, next: nat, c: Call<N, L>)
    requires next < |program|
    ensures Finished(program, next + 1, c) == Finished(program, next, c) + multiset{program[next]}[c]
  {
    assert program[..next + 1] == program[..next] + [program[next]];
  }

  /** One call more, or none. */
  lemma FinishedStep<N(!new), L(!new)>(g: Config<N, L>, s: State<N, L>, i: nat)
    requires Enabled(g, s, i)
    ensures var s' := Do(g, s, i);
            && |s'.threads| == |s.threads| && s'.threads == s.threads[i := s'.threads[i]]
            && ((s'.threads[i].next == s.threads[i].next && s'.finished == s.finished)
                || (s'.threads[i].next == s.threads[i].next + 1 && s'.finished == s.finished + multiset{CallOf(g, s, i)}))
  {
  }

  lemma FinishedKept<N(!new), L(!new)>(g: Config<N, L>, s: State<N, L>, i: nat)
    requires FinishedAgrees(g, s) && Enabled(g, s, i)
    ensures FinishedAgrees(g, Do(g, s, i))
  {
    FinishedStep(g, s, i);
    hide Do, Total, Finished;
    var s' := Do(g, s, i);
    forall c ensures s'.finished[c] == Total(g, s'.threads, |s'.threads|, c) {
      TotalUpdated(g, s.threads, |s.threads|, i, s'.threads[i], c);
      FinishedOneMore(g.programs[i], s.threads[i].next, c);
    }
  }

  lemma {:induction false} FinishedAlwaysAgrees<N(!new), L(!new)>(g: Config<N, L>, run: seq<State<N, L>>, n: nat)
    requires IsRun(g, run) && n < |run|
    ensures FinishedAgrees(g, run[n])
  {
    hide Do, Enabled, FinishedAgrees, Init;
    if n > 0 {
      FinishedAlwaysAgrees(g, run, n - 1);
      assert Next(g, run[n - 1], run[n]);
      var i: nat :| Enabled(g, run[n - 1], i) && run[n] == Do(g, run[n - 1], i);
      FinishedKept(g, run[n - 1], i);
    } else {
      InitFinished(g, run[0]);
    }
  }

  lemma InitFinished<N(!new), L(!new)>(g: Config<N, L>, s: State<N, L>)
    requires Init(g, s)
    ensures FinishedAgrees(g, s)
  {
    forall c ensures s.finished[c] == Total(g, s.threads, |s.threads|, c) { TotalOfNone(g, s.threads, |s.threads|, c); }
  }

  /** Conservation: what the registry exposes is exactly the number of calls that threads have finished. */
  lemma ExposedIsTotal<N(!new), L(!new)>(g: Config<N, L>, run: seq<State<N, L>>, n: nat, c: Call<N, L>)
    requires IsRun(g, run) && n < |run|
    ensures |run[n].threads| == |g.programs|
    ensures Exposed(run[n].registry, run[n].values, c) == Total(g, run[n].threads, |run[n].threads|, c)
  {
    SoundAlways(g, run, n);
    FinishedAlwaysAgrees(g, run, n);
    hide Distinct, IdsOk, HoldsRight, IsRun, Total, Exposed;
  }

  ghost predicate AllDone<N, L>(g: Config<N, L>, s: State<N, L>) {
    |s.threads| == |g.programs| && forall i :: 0 <= i < |s.threads| ==> s.threads[i].next == |g.programs[i]|
  }

  /** How often call `c` occurs in the first `n` programs. */
  ghost function Planned<N, L>(programs: seq<seq<Call<N, L>>>, n: nat, c: Call<N, L>): nat
    requires n <= |programs|
  {
    if n == 0 then 0 else Planned(programs, n - 1, c) + multiset(programs[n - 1])[c]
  }

  lemma {:induction false} TotalWhenDone<N(!new), L(!new)>(g: Config<N, L>, s: State<N, L>, n: nat, c: Call<N, L>)
    requires AllDone(g, s) && n <= |s.threads|
    ensures Total(g, s.threads, n, c) == Planned(g.programs, n, c)
  {
    if n > 0 {
      TotalWhenDone(g, s, n - 1, c);
      assert g.programs[n - 1][..|g.programs[n - 1]|] == g.programs[n - 1];
    }
  }

  /** Once every thread is through, the registry exposes every call made, in whatever order they ran. */
  lemma ExposedWhenDone<N(!new), L(!new)>(g: Config<N, L>, run: seq<State<N, L>>, n: nat, c: Call<N, L>)
    requires IsRun(g, run) && n < |run| && AllDone(g, run[n])
    ensures Exposed(run[n].registry, run[n].values, c) == Planned(g.programs, |g.programs|, c)
  {
    hide IsRun, Exposed;
    ExposedIsTotal(g, run, n, c);
    TotalWhenDone(g, run[n], |g.programs|, c);
  }

  // ---- every call gets through, exactly when names are used consistently ----

  /** Thread i's next step, granted as the runtime does: no reader gets past a writer that waits. */
  ghost predicate Granted<N, L>(g: Config<N, L>, s: State<N, L>, i: nat) {
    && Enabled(g, s, i)
    && (s.threads[i].pc.Ready? ==> forall j :: 0 <= j < |s.threads| ==> !s.threads[j].pc.Missed?)
  }

  /** While calls are left, some thread is granted its next step. */
  lemma NoDeadlock<N(!new), L(!new)>(g: Config<N, L>, run: seq<State<N, L>>, n: nat)
    requires IsRun(g, run) && Consistent(g) && n < |run| && !AllDone(g, run[n])
    ensures exists i: nat :: Granted(g, run[n], i)
  {
    RunKeepsInv(g, run, n);
    hide TableOk, CountsOk, Consistent, IsRun;
    var s := run[n];
    if s.writer.Some? {
      assert ThreadOk(g.programs[s.writer.value], s.registry, s.threads[s.writer.value]);
      assert Granted(g, s, s.writer.value);
    } else if s.readers != {} {
      var i :| i in s.readers;
      assert ThreadOk(g.programs[i], s.registry, s.threads[i]);
      assert Granted(g, s, i);
    } else if i :| 0 <= i < |s.threads| && s.threads[i].pc.Missed? {
      assert ThreadOk(g.programs[i], s.registry, s.threads[i]);
      assert Granted(g, s, i);
    } else {
      var i :| 0 <= i < |s.threads| && s.threads[i].next != |g.programs[i]|;
      assert ThreadOk(g.programs[i], s.registry, s.threads[i]);
      assert Granted(g, s, i);
    }
  }

  /** Steps to the end of the current call at most. */
  function Rank<N>(pc: Pc<N>): nat {
    match pc
    case Ready => 6
    case Reading => 5
    case Missed => 4
    case Creating => 3
    case Found(_) => 2
    case Got(_) => 1
    case Panicked => 0
  }

  ghost function StepsOf<N, L>(program: seq<Call<N, L>>, th: Thread<N>): int {
    6 * (|program| - th.next) - 6 + Rank(th.pc)
  }

  /** The steps the first `n` threads have left at most. */
  ghost function StepsLeft<N, L>(g: Config<N, L>, threads: seq<Thread<N>>, n: nat): int
    requires n <= |threads| && n <= |g.programs|
  {
    if n == 0 then 0 else StepsLeft(g, threads, n - 1) + StepsOf(g.programs[n - 1], threads[n - 1])
  }

  lemma {:induction false} StepsUpdated<N, L>(g: Config<N, L>, threads: seq<Thread<N>>, n: nat, i: nat, th: Thread<N>)
    requires n <= |threads| && n <= |g.programs| && i < |threads| && i < |g.programs|
    ensures StepsLeft(g, threads[i := th], n)
         == StepsLeft(g, threads, n) + if i < n then StepsOf(g.programs[i], th) - StepsOf(g.programs[i], threads[i]) else 0
  {
    hide StepsOf;
    if n > 0 { StepsUpdated(g, threads, n - 1, i, th); }
  }

  lemma OneStepLess<N, L>(g: Config<N, L>, s: State<N, L>, i: nat)
    requires Enabled(g, s, i) && |s.threads| == |g.programs|
    ensures |Do(g, s, i).threads| == |g.programs|
    ensures StepsLeft(g, Do(g, s, i).threads, |g.programs|) < StepsLeft(g, s.threads, |g.programs|)
  {
    var th' := Do(g, s, i).threads[i];
    assert Do(g, s, i).threads == s.threads[i := th'];
    assert StepsOf(g.programs[i], th') < StepsOf(g.programs[i], s.threads[i]);
    StepsUpdated(g, s.threads, |g.programs|, i, th');
  }

  lemma {:induction false} StepsNotNegative<N(!new), L(!new)>(g: Config<N, L>, s: State<N, L>, n: nat)
    requires ThreadsOk(g, s) && n <= |s.threads|
    ensures StepsLeft(g, s.threads, n) >= 0
  {
    if n > 0 {
      StepsNotNegative(g, s, n - 1);
      assert ThreadOk(g.programs[n - 1], s.registry, s.threads[n - 1]);
    }
  }

  ghost function Calls<N, L>(programs: seq<seq<Call<N, L>>>, n: nat): nat
    requires n <= |programs|
  {
    if n == 0 then 0 else Calls(programs, n - 1) + |programs[n - 1]|
  }

  lemma {:induction false} StepsAtFirst<N, L>(g: Config<N, L>, s: State<N, L>, n: nat)
    requires Init(g, s) && n <= |s.threads|
    ensures StepsLeft(g, s.threads, n) == 6 * Calls(g.programs, n)
  {
    if n > 0 { StepsAtFirst(g, s, n - 1); }
  }

  lemma {:induction false} StepsRunOut<N(!new), L(!new)>(g: Config<N, L>, run: seq<State<N, L>>, n: nat)
    requires IsRun(g, run) && n < |run|
    ensures |run[n].threads| == |g.programs|
    ensures n + StepsLeft(g, run[n].threads, |g.programs|) <= 6 * Calls(g.programs, |g.programs|)
  {
    hide Do, Enabled, StepsLeft, Calls, StepsOf;
    if n > 0 {
      StepsRunOut(g, run, n - 1);
      assert Next(g, run[n - 1], run[n]);
      var i: nat :| Enabled(g, run[n - 1], i) && run[n] == Do(g, run[n - 1], i);
      OneStepLess(g, run[n - 1], i);
    } else {
      StepsAtFirst(g, run[0], |g.programs|);
    }
  }

  ghost predicate Stuck<N, L>(g: Config<N, L>, s: State<N, L>) {
    forall i: nat :: i < |s.threads| ==> !Granted(g, s, i)
  }

  /** No run is longer than six steps a call, and one that cannot go on has made every call. */
  lemma EveryRunCompletes<N(!new), L(!new)>(g: Config<N, L>, run: seq<State<N, L>>)
    requires IsRun(g, run) && Consistent(g)
    ensures |run| <= 6 * Calls(g.programs, |g.programs|) + 1
    ensures Stuck(g, run[|run| - 1]) ==> AllDone(g, run[|run| - 1])
  {
    hide Next, Init, Consistent, LocksOk, TableOk, CountsOk, StepsLeft, Calls;
    var n := |run| - 1;
    RunKeepsInv(g, run, n);
    StepsRunOut(g, run, n);
    StepsNotNegative(g, run[n], |g.programs|);
    if !AllDone(g, run[n]) { NoDeadlock(g, run, n); }
  }

  /** What every finished call left behind, whether or not names are used consistently. */
  ghost predicate Traces<N(!new), L(!new)>(g: Config<N, L>, s: State<N, L>) {
    && (forall k :: k in s.registry.vecs ==>
          k.name in s.registry.registered && k.name !in g.base && s.registry.vecs[k].labelNames !! g.constant)
    && (forall j, k :: j in s.registry.vecs && k in s.registry.vecs && j.name == k.name ==> j == k)
    && (forall c :: c in s.finished ==> SlotOf(c) in s.registry.vecs && g.keysOf(c.labels) == s.registry.vecs[SlotOf(c)].labelNames)
  }

  lemma TracesOfCreate<N(!new), L(!new)>(g: Config<N, L>, s: State<N, L>, i: nat, c: Call<N, L>)
    requires Traces(g, s) && i < |s.threads|
    ensures Traces(g, Create(g, s, i, c))
  {
  }

  lemma TracesOfUpdate<N(!new), L(!new)>(g: Config<N, L>, s: State<N, L>, i: nat, c: Call<N, L>, v: Vec<N>)
    requires Traces(g, s) && i < |s.threads| && SlotOf(c) in s.registry.vecs && s.registry.vecs[SlotOf(c)] == v
    ensures Traces(g, Update(g, s, i, c, v))
  {
  }

  lemma TracesKept<N(!new), L(!new)>(g: Config<N, L>, s: State<N, L>, i: nat)
    requires Traces(g, s) && HoldsRight(g, s) && Enabled(g, s, i)
    ensures Traces(g, Do(g, s, i))
  {
    hide Create, Update;
    match s.threads[i].pc
    case Creating => TracesOfCreate(g, s, i, CallOf(g, s, i));
    case Got(v) => TracesOfUpdate(g, s, i, CallOf(g, s, i), v);
    case _ =>
  }

  lemma {:induction false} TracesAlways<N(!new), L(!new)>(g: Config<N, L>, run: seq<State<N, L>>, n: nat)
    requires IsRun(g, run) && n < |run|
    ensures Traces(g, run[n]) && HoldsRight(g, run[n])
  {
    if n > 0 {
      hide Do, Enabled, Traces, HoldsRight, Init;
      TracesAlways(g, run, n - 1);
      assert Next(g, run[n - 1], run[n]);
      var i: nat :| Enabled(g, run[n - 1], i) && run[n] == Do(g, run[n - 1], i);
      TracesKept(g, run[n - 1], i);
      HoldsRightKept(g, run[n - 1], i);
    }
  }

  lemma {:induction false} PlannedIsPositive<N, L>(programs: seq<seq<Call<N, L>>>, n: nat, i: nat, c: Call<N, L>)
    requires i < n <= |programs| && c in programs[i]
    ensures Planned(programs, n, c) > 0
  {
    if i < n - 1 {
      PlannedIsPositive(programs, n - 1, i, c);
    } else {
      assert c in multiset(programs[i]);
    }
  }

  /** The condition is exact: a run that gets every call through shows that names were used consistently. */
  lemma CompletionNeedsConsistency<N(!new), L(!new)>(g: Config<N, L>, run: seq<State<N, L>>, n: nat)
    requires IsRun(g, run) && n < |run| && AllDone(g, run[n])
    ensures Consistent(g)
  {
    TracesAlways(g, run, n);
    FinishedAlwaysAgrees(g, run, n);
    hide IsRun, Total, Planned, HoldsRight;
    forall c | Made(g, c) ensures c in run[n].finished {
      hide Traces;
      var i :| 0 <= i < |g.programs| && c in g.programs[i];
      TotalWhenDone(g, run[n], |g.programs|, c);
      PlannedIsPositive(g.programs, |g.programs|, i, c);
    }
    hide Made, FinishedAgrees, AllDone;
  }

  ghost predicate Completes<N, L>(g: Config<N, L>, run: seq<State<N, L>>) {
    IsRun(g, run) && AllDone(g, run[|run| - 1])
  }

  /** Any run can be carried on until every call is through. */
  lemma {:induction false} CarryOn<N(!new), L(!new)>(g: Config<N, L>, run: seq<State<N, L>>) returns (whole: seq<State<N, L>>)
    requires IsRun(g, run) && Consistent(g)
    ensures Completes(g, whole) && run <= whole
    decreases 6 * Calls(g.programs, |g.programs|) + 1 - |run|
  {
    hide Consistent, Do, Init, AllDone, Calls;
    EveryRunCompletes(g, run);
    var last := |run| - 1;
    if AllDone(g, run[last]) { return run; }
    NoDeadlock(g, run, last);
    var i: nat :| Granted(g, run[last], i);
    assert Next(g, run[last], Do(g, run[last], i));
    var longer := run + [Do(g, run[last], i)];
    assert forall j :: 0 <= j < |longer| - 1 ==> Next(g, longer[j], longer[j + 1]);
    EveryRunCompletes(g, longer);
    whole := CarryOn(g, longer);
  }

  /** Every call can get through exactly when the calls use their names consistently. */
  lemma CompletesExactlyWhenConsistent<N(!new), L(!new)>(g: Config<N, L>)
    ensures (exists run: seq<State<N, L>> :: Completes(g, run)) <==> Consistent(g)
  {
    if Consistent(g) {
      var first := State(seq(|g.programs|, _ => Thread(0, Ready)), None, {}, Registry(map[], [], 0), map[], multiset{});
      assert IsRun(g, [first]);
      var run := CarryOn(g, [first]);
    }
    if run: seq<State<N, L>> :| Completes(g, run) {
      CompletionNeedsConsistency(g, run, |run| - 1);
    }
  }
}
