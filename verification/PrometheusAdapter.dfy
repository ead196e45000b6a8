/**
  PrometheusMetricsAdapter as one thread sees it: three maps filled lazily, one per metric kind, in
  front of one registry of names. Each method is one call run to its end, and agrees with what the
  step model says about that call.
 */
module PrometheusAdapters {
  import opened Common
  import opened MetricsAdapter

  type Labels = map<string, string>

  const CONSTANT_LABELS := {"service", "instance", "version"}

  function KeysOf(labels: Labels): set<string> {
    labels.Keys
  }

  /** The adapter's label rules, with the names its registry holds from the start. */
  function AdapterConfig(base: set<string>, programs: seq<seq<Call<string, Labels>>>): Config<string, Labels> {
    Config(KeysOf, CONSTANT_LABELS, base, programs)
  }

  function Tagged<N(==)>(kind: Kind, vecs: map<N, Vec<N>>): Table<N> {
    map n | n in vecs :: Slot(kind, n) := vecs[n]
  }

  /** The three maps read as one table. */
  function Merge<N(==)>(counters: map<N, Vec<N>>, histograms: map<N, Vec<N>>, gauges: map<N, Vec<N>>): Table<N> {
    Tagged(Counter, counters) + Tagged(Histogram, histograms) + Tagged(Gauge, gauges)
  }

  function Pick<N>(counters: map<N, Vec<N>>, histograms: map<N, Vec<N>>, gauges: map<N, Vec<N>>, kind: Kind): map<N, Vec<N>> {
    match kind
    case Counter => counters
    case Histogram => histograms
    case Gauge => gauges
  }

  /** Looking a name up in the map of its kind is looking its slot up in the table. */
  lemma MergeLooksUp<N>(counters: map<N, Vec<N>>, histograms: map<N, Vec<N>>, gauges: map<N, Vec<N>>, k: Slot<N>)
    ensures k in Merge(counters, histograms, gauges) <==> k.name in Pick(counters, histograms, gauges, k.kind)
    ensures k in Merge(counters, histograms, gauges) ==>
              Merge(counters, histograms, gauges)[k] == Pick(counters, histograms, gauges, k.kind)[k.name]
  {
  }

  lemma TaggedWrites<N>(kind: Kind, vecs: map<N, Vec<N>>, n: N, v: Vec<N>)
    ensures Tagged(kind, vecs[n := v]) == Tagged(kind, vecs)[Slot(kind, n) := v]
  {
  }

  lemma TaggedByKind<N>(kind: Kind, vecs: map<N, Vec<N>>, k: Slot<N>)
    requires k.kind != kind
    ensures k !in Tagged(kind, vecs)
  {
  }

  /** Writing one map writes one slot of the table. */
  lemma MergeWrites<N>(counters: map<N, Vec<N>>, histograms: map<N, Vec<N>>, gauges: map<N, Vec<N>>, n: N, v: Vec<N>)
    ensures Merge(counters[n := v], histograms, gauges) == Merge(counters, histograms, gauges)[Slot(Counter, n) := v]
    ensures Merge(counters, histograms[n := v], gauges) == Merge(counters, histograms, gauges)[Slot(Histogram, n) := v]
    ensures Merge(counters, histograms, gauges[n := v]) == Merge(counters, histograms, gauges)[Slot(Gauge, n) := v]
  {
    TaggedWrites(Counter, counters, n, v);
    TaggedWrites(Histogram, histograms, n, v);
    TaggedWrites(Gauge, gauges, n, v);
    TaggedByKind(Histogram, histograms, Slot(Counter, n));
    TaggedByKind(Gauge, gauges, Slot(Counter, n));
    TaggedByKind(Gauge, gauges, Slot(Histogram, n));
    hide Tagged;
    FirstOfThree(Tagged(Counter, counters), Tagged(Histogram, histograms), Tagged(Gauge, gauges), Slot(Counter, n), v);
    SecondOfThree(Tagged(Counter, counters), Tagged(Histogram, histograms), Tagged(Gauge, gauges), Slot(Histogram, n), v);
    ThirdOfThree(Tagged(Counter, counters), Tagged(Histogram, histograms), Tagged(Gauge, gauges), Slot(Gauge, n), v);
  }

  lemma FirstOfThree<K, V>(a: map<K, V>, b: map<K, V>, c: map<K, V>, k: K, v: V)
    requires k !in b && k !in c
    ensures a[k := v] + b + c == (a + b + c)[k := v]
  {
  }

  lemma SecondOfThree<K, V>(a: map<K, V>, b: map<K, V>, c: map<K, V>, k: K, v: V)
    requires k !in c
    ensures a + b[k := v] + c == (a + b + c)[k := v]
  {
  }

  lemma ThirdOfThree<K, V>(a: map<K, V>, b: map<K, V>, c: map<K, V>, k: K, v: V)
    ensures a + b + c[k := v] == (a + b + c)[k := v]
  {
  }

  ghost predicate Numbered<N, L>(r: Registry<N>, values: Values<L>) {
    forall p :: p in values ==> p.0 < r.nextId
  }

  /** The registry now shows `more` updates more for the call's kind, name and label set, and nothing else changed. */
  ghost predicate Shows<N(!new), L(!new)>(r: Registry<N>, values: Values<L>, r': Registry<N>, values': Values<L>, c: Call<N, L>, more: nat) {
    Grown(r, r') && forall d :: Exposed(r', values', d) == Exposed(r, values, d) + if d == c then more else 0
  }

  /** Getting a vector shows nothing new. */
  lemma GetShowsNothing<N(!new), L(!new)>(g: Config<N, L>, r: Registry<N>, values: Values<L>, c: Call<N, L>)
    requires IdsOk(r) && Numbered(r, values) && GetOrCreate(g, r, c).Some?
    ensures var (r', v) := GetOrCreate(g, r, c).value;
            IdsOk(r') && Shows(r, values, r', values, c, 0) && SlotOf(c) in r'.vecs && r'.vecs[SlotOf(c)] == v
  {
    if SlotOf(c) !in r.vecs { IdsExtended(g, r, c); }
  }

  /** The update after it shows once, under the call's own kind, name and label set. */
  lemma UpdateShowsOnce<N(!new), L(!new)>(g: Config<N, L>, r: Registry<N>, values: Values<L>, c: Call<N, L>)
    requires IdsOk(r) && Numbered(r, values) && GetOrCreate(g, r, c).Some?
    ensures var (r', v) := GetOrCreate(g, r, c).value;
            Shows(r, values, r', Bump(values, v.id, c.labels), c, 1) && Numbered(r', Bump(values, v.id, c.labels))
  {
    GetShowsNothing(g, r, values, c);
    hide GetOrCreate, Bump, Exposed;
    var (r', v) := GetOrCreate(g, r, c).value;
    forall d ensures Exposed(r', Bump(values, v.id, c.labels), d) == Exposed(r, values, d) + if d == c then 1 else 0 {
      ExposedAfterBump(r', values, c, d);
    }
    BumpStaysNumbered(r', values, v.id, c.labels);
  }

  lemma BumpStaysNumbered<N, L>(r: Registry<N>, values: Values<L>, id: nat, labels: L)
    requires Numbered(r, values) && id < r.nextId
    ensures Numbered(r, Bump(values, id, labels))
  {
  }

  /** The calls that go through: the vector is there with these label names, or free to make without a constant label. */
  ghost predicate Accepts<N, L>(g: Config<N, L>, r: Registry<N>, c: Call<N, L>) {
    if SlotOf(c) in r.vecs then r.vecs[SlotOf(c)].labelNames == g.keysOf(c.labels)
    else !Taken(g, r, c) && g.keysOf(c.labels) !! g.constant
  }

  /** The registry and the values after a whole call, and whether the call goes through. */
  function WholeCall<N(==), L(==)>(g: Config<N, L>, r: Registry<N>, values: Values<L>, c: Call<N, L>): (Registry<N>, Values<L>, bool) {
    match GetOrCreate(g, r, c)
    case None => (r, values, false)
    case Some((r', v)) => if g.keysOf(c.labels) == v.labelNames then (r', Bump(values, v.id, c.labels), true) else (r', values, false)
  }

  /** A call shows exactly once if the adapter accepts it, and not at all otherwise. */
  lemma CallShows<N(!new), L(!new)>(g: Config<N, L>, r: Registry<N>, values: Values<L>, c: Call<N, L>)
    requires IdsOk(r) && Numbered(r, values)
    ensures var (r', values', ok) := WholeCall(g, r, values, c);
            && IdsOk(r') && Numbered(r', values') && (ok <==> Accepts(g, r, c))
            && Shows(r, values, r', values', c, if ok then 1 else 0)
  {
    hide IdsOk, Bump, Exposed;
    if GetOrCreate(g, r, c).Some? {
      GetShowsNothing(g, r, values, c);
      UpdateShowsOnce(g, r, values, c);
    }
  }

  /** Accepted calls that use their names consistently do not spoil each other. */
  lemma AcceptsKept<N(!new), L(!new)>(g: Config<N, L>, r: Registry<N>, values: Values<L>, c: Call<N, L>, d: Call<N, L>)
    requires Accepts(g, r, c) && Accepts(g, r, d)
    requires c.name == d.name ==> c.kind == d.kind && g.keysOf(c.labels) == g.keysOf(d.labels)
    ensures Accepts(g, WholeCall(g, r, values, c).0, d)
  {
  }

  /** The registry now shows each of `calls` once more, and nothing else changed. */
  ghost predicate ShowsAll<N(!new), L(!new)>(r: Registry<N>, values: Values<L>, r': Registry<N>, values': Values<L>, calls: seq<Call<N, L>>) {
    Grown(r, r') && forall d :: Exposed(r', values', d) == Exposed(r, values, d) + multiset(calls)[d]
  }

  lemma ShowsOneMore<N(!new), L(!new)>(r: Registry<N>, values: Values<L>, r': Registry<N>, values': Values<L>, calls: seq<Call<N, L>>,
                                       r'': Registry<N>, values'': Values<L>, c: Call<N, L>)
    requires ShowsAll(r, values, r', values', calls) && Shows(r', values', r'', values'', c, 1)
    ensures ShowsAll(r, values, r'', values'', calls + [c])
  {
  }

  /** extractLabelNames: every key once, but for the constant labels. */
  method ExtractLabelNames(labels: Labels) returns (names: seq<string>)
    ensures forall n :: n in names <==> n in labels.Keys - CONSTANT_LABELS
    ensures forall n :: n in names <==> n in labels && n != "service" && n != "instance" && n != "version"
    ensures forall i, j :: 0 <= i < j < |names| ==> names[i] != names[j]
  {
    names := [];
    var pending := labels.Keys;
    while pending != {}
      invariant pending <= labels.Keys
      invariant forall n :: n in names <==> n in labels.Keys - CONSTANT_LABELS - pending
      invariant forall i, j :: 0 <= i < j < |names| ==> names[i] != names[j]
      decreases pending
    {
      var key :| key in pending;
      assert key !in names;
      pending := pending - {key};
      if key != "service" && key != "instance" && key != "version" {
        names := names + [key];
      }
    }
  }

  class PrometheusMetricsAdapter {
    var counters: map<string, Vec<string>>
    var histograms: map<string, Vec<string>>
    var gauges: map<string, Vec<string>>
    var registered: seq<string>
    var nextId: nat
    var values: Values<Labels>
    const base: set<string>

    ghost function View(): Registry<string>
      reads this`counters, this`histograms, this`gauges, this`registered, this`nextId
    {
      Registry(Merge(counters, histograms, gauges), registered, nextId)
    }

    ghost function Rules(): Config<string, Labels> {
      AdapterConfig(base, [])
    }

    ghost predicate Valid()
      reads this
    {
      IdsOk(View()) && Numbered(View(), values)
    }

    constructor (base: set<string>)
      ensures Valid() && View() == Registry(map[], [], 0) && values == map[] && this.base == base
    {
      counters, histograms, gauges, registered, nextId, values := map[], map[], map[], [], 0, map[];
      this.base := base;
    }

    /** The labels of a new vector, and its registration. */
    method Register(kind: Kind, name: string, labels: Labels) returns (r: Option<Vec<string>>)
      modifies `registered, `nextId
      ensures Taken(Rules(), old(View()), Call(kind, name, labels)) ==>
                r.None? && registered == old(registered) && nextId == old(nextId)
      ensures !Taken(Rules(), old(View()), Call(kind, name, labels)) ==>
                r == Some(NewVec(Rules(), old(View()), Call(kind, name, labels)))
                && registered == old(registered) + [name] && nextId == old(nextId) + 1
    {
      var labelNames := ExtractLabelNames(labels);
      if name in base || name in registered { return None; }
      assert (set n | n in labelNames) == labels.Keys - CONSTANT_LABELS;
      r := Some(Vec(nextId, set n | n in labelNames));
      registered := registered + [name];
      nextId := nextId + 1;
    }

    method GetOrCreateCounter(name: string, labels: Labels) returns (r: Option<Vec<string>>)
      requires Valid()
      modifies `counters, `registered, `nextId
      ensures Valid()
      ensures match GetOrCreate(Rules(), old(View()), Call(Counter, name, labels))
              case Some((view, v)) => View() == view && r == Some(v)
              case None => View() == old(View()) && r.None?
    {
      ghost var c := Call(Counter, name, labels);
      MergeLooksUp(counters, histograms, gauges, SlotOf(c));
      hide Merge;
      if name in counters { return Some(counters[name]); }
      r := Register(Counter, name, labels);
      if r.Some? {
        MergeWrites(counters, histograms, gauges, name, r.value);
        IdsExtended(Rules(), old(View()), c);
        counters := counters[name := r.value];
      }
    }

    method GetOrCreateHistogram(name: string, labels: Labels) returns (r: Option<Vec<string>>)
      requires Valid()
      modifies `histograms, `registered, `nextId
      ensures Valid()
      ensures match GetOrCreate(Rules(), old(View()), Call(Histogram, name, labels))
              case Some((view, v)) => View() == view && r == Some(v)
              case None => View() == old(View()) && r.None?
    {
      ghost var c := Call(Histogram, name, labels);
      MergeLooksUp(counters, histograms, gauges, SlotOf(c));
      hide Merge;
      if name in histograms { return Some(histograms[name]); }
      r := Register(Histogram, name, labels);
      if r.Some? {
        MergeWrites(counters, histograms, gauges, name, r.value);
        IdsExtended(Rules(), old(View()), c);
        histograms := histograms[name := r.value];
      }
    }

    method GetOrCreateGauge(name: string, labels: Labels) returns (r: Option<Vec<string>>)
      requires Valid()
      modifies `gauges, `registered, `nextId
      ensures Valid()
      ensures match GetOrCreate(Rules(), old(View()), Call(Gauge, name, labels))
              case Some((view, v)) => View() == view && r == Some(v)
              case None => View() == old(View()) && r.None?
    {
      ghost var c := Call(Gauge, name, labels);
      MergeLooksUp(counters, histograms, gauges, SlotOf(c));
      hide Merge;
      if name in gauges { return Some(gauges[name]); }
      r := Register(Gauge, name, labels);
      if r.Some? {
        MergeWrites(counters, histograms, gauges, name, r.value);
        IdsExtended(Rules(), old(View()), c);
        gauges := gauges[name := r.value];
      }
    }

    /** With(labels).Inc() or .Observe(): false if With panics. */
    method Apply(v: Vec<string>, labels: Labels) returns (ok: bool)
      modifies `values
      ensures ok <==> labels.Keys == v.labelNames
      ensures values == if ok then Bump(old(values), v.id, labels) else old(values)
    {
      ok := labels.Keys == v.labelNames;
      if ok {
        values := values[(v.id, labels) := (if (v.id, labels) in values then values[(v.id, labels)] else 0) + 1];
      }
    }

    /** IncCounter: false if it panics. */
    method IncCounter(name: string, labels: Labels) returns (ok: bool)
      requires Valid()
      modifies this
      ensures Valid()
      ensures (View(), values, ok) == WholeCall(Rules(), old(View()), old(values), Call(Counter, name, labels))
      ensures ok <==> Accepts(Rules(), old(View()), Call(Counter, name, labels))
      ensures Shows(old(View()), old(values), View(), values, Call(Counter, name, labels), if ok then 1 else 0)
    {
      ghost var r, c := View(), Call(Counter, name, labels);
      hide Merge, Shows, IdsOk, Numbered, Accepts, GetOrCreate, Bump;
      CallShows(Rules(), r, values, c);
      var v := GetOrCreateCounter(name, labels);
      if v.None? { return false; }
      ok := Apply(v.value, labels);
    }

    /** ObserveHistogram: false if it panics. */
    method ObserveHistogram(name: string, labels: Labels) returns (ok: bool)
      requires Valid()
      modifies this
      ensures Valid()
      ensures (View(), values, ok) == WholeCall(Rules(), old(View()), old(values), Call(Histogram, name, labels))
      ensures ok <==> Accepts(Rules(), old(View()), Call(Histogram, name, labels))
      ensures Shows(old(View()), old(values), View(), values, Call(Histogram, name, labels), if ok then 1 else 0)
    {
      ghost var r, c := View(), Call(Histogram, name, labels);
      hide Merge, Shows, IdsOk, Numbered, Accepts, GetOrCreate, Bump;
      CallShows(Rules(), r, values, c);
      var v := GetOrCreateHistogram(name, labels);
      if v.None? { return false; }
      ok := Apply(v.value, labels);
    }
  }
}
