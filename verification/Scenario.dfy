/**
  The scenario stream: one price update per second of scenario time, each computed from the base
  price, the intensity and the progress made. Prices are reals; square root, sine and exponential
  are parameters of which only the stated properties are used.
 */
module Scenario {
  import opened Common
  import opened Reals

  datatype ScenarioType = Rally | Crash | Divergence | MeanReverting | VolatilitySpike | Consolidation

  datatype Maths = Maths(sqrt: real -> real, sin: real -> real, exp: real -> real)

  ghost predicate Sound(m: Maths) {
    && (forall x: real :: x >= 0.0 ==> m.sqrt(x) >= 0.0 && m.sqrt(x) * m.sqrt(x) == x)
    && (forall x: real :: -1.0 <= m.sin(x) <= 1.0)
    && (forall x: real :: x <= 0.0 ==> 0.0 < m.exp(x) <= 1.0)
  }

  const PI: real := 3.141592653589793

  datatype ChangeInfo = ChangeInfo(amount: real, percentage: real, high: real, low: real, dailyVolume: real)

  datatype PriceUpdate = PriceUpdate(symbol: string, price: real, volume: real, timestamp: Time, change: ChangeInfo)

  /** The change block both generators attach: relative to `reference`, with highs and lows two percent off. */
  function ChangeOf(price: real, reference: real, volume: real): ChangeInfo
    requires reference != 0.0
  {
    ChangeInfo(price - reference, (price - reference) / reference * 100.0, price * 1.02, price * 0.98, volume * 100.0)
  }

  /** The block describes one move: amount and percentage both lead from the reference to the price, inside low and high. */
  lemma ChangeIsConsistent(price: real, reference: real, volume: real)
    requires reference != 0.0 && price > 0.0
    ensures var c := ChangeOf(price, reference, volume);
            && reference + c.amount == price && reference + reference * (c.percentage / 100.0) == price
            && c.low < price < c.high && c.low == price * 0.98 && c.high == price * 1.02 && c.dailyVolume == volume * 100.0
  {
    var q := (price - reference) / reference;
    assert reference * q == price - reference;
    assert q * 100.0 / 100.0 == q;
  }

  function Multiplier(m: Maths, kind: ScenarioType, intensity: real, progress: real): real {
    match kind
    case Rally => 1.0 + (intensity - 1.0) * m.sqrt(progress)
    case Crash => 1.0 - (intensity - 1.0) * progress * 0.5
    case Divergence => 1.0 + (intensity - 1.0) * 0.1 * m.sin(progress * PI * 4.0)
    case MeanReverting => 1.0 + (intensity - 1.0) * 0.2 * m.sin(progress * PI * 2.0) * m.exp(-progress * 3.0)
    case _ => 1.0
  }

  function Progress(now: Time, start: Time, end: Time): real
    requires start < end
  {
    (now - start) as real / (end - start) as real
  }

  /** What the request and the price service fix for a whole stream. */
  datatype Setting = Setting(symbol: string, kind: ScenarioType, intensity: real, base: real, start: Time, end: Time)

  function ScenarioPrice(m: Maths, c: Setting, now: Time, draw: real): PriceUpdate
    requires c.start < c.end && c.base != 0.0
  {
    var price := c.base * Multiplier(m, c.kind, c.intensity, Progress(now, c.start, c.end));
    var volume := 1000.0 + draw * 9000.0 * c.intensity;
    PriceUpdate(c.symbol, price, volume, now, ChangeOf(price, c.base, volume))
  }

  /** What happens at the i-th turn of the stream's select. */
  datatype Turn = Cancelled | Tick(sent: bool, draw: real)

  datatype Ending = Completed | ContextDone | SendFailed

  /** How many updates a scenario of this length takes, one for every second begun. */
  function Updates(duration: Time): nat {
    if duration <= 0 then 0 else (duration + SECOND - 1) / SECOND
  }

  function Settings(symbol: string, kind: ScenarioType, intensity: Option<real>, priced: Option<real>, start: Time, minutes: int): Setting {
    Setting(symbol, kind, if intensity.Some? then intensity.value else 1.0,
            if priced.Some? then priced.value else 100.0, start, start + Wrap64(minutes * MINUTE))
  }

  /** The switch over the scenario type. */
  method PriceMultiplier(m: Maths, kind: ScenarioType, intensity: real, progress: real) returns (multiplier: real)
    ensures multiplier == Multiplier(m, kind, intensity, progress)
  {
    multiplier := 1.0;
    match kind {
      case Rally => multiplier := 1.0 + (intensity - 1.0) * m.sqrt(progress);
      case Crash => multiplier := 1.0 - (intensity - 1.0) * progress * 0.5;
      case Divergence => multiplier := 1.0 + (intensity - 1.0) * 0.1 * m.sin(progress * PI * 4.0);
      case MeanReverting =>
        var deviation := (intensity - 1.0) * 0.2 * m.sin(progress * PI * 2.0);
        multiplier := 1.0 + deviation * m.exp(-progress * 3.0);
      case _ =>
    }
  }

  /** generateScenarioPrice; `intensity` is None when the request carries no parameters. */
  method GenerateScenarioPrice(m: Maths, symbol: string, kind: ScenarioType, intensity: Option<real>, base: real,
                               current: Time, start: Time, end: Time, draw: real)
    returns (update: PriceUpdate)
    requires start < end && base != 0.0
    ensures update == ScenarioPrice(m, Setting(symbol, kind, if intensity.Some? then intensity.value else 1.0, base, start, end), current, draw)
  {
    var progress := (current - start) as real / (end - start) as real;
    var i := 1.0;
    if intensity.Some? { i := intensity.value; }
    hide Multiplier, ChangeOf;
    var multiplier := PriceMultiplier(m, kind, i, progress);
    var price := base * multiplier;
    var volume := 1000.0 + draw * 9000.0 * i;
    update := PriceUpdate(symbol, price, volume, current, ChangeOf(price, base, volume));
  }

  /** The first `n` turns delivered the first `n` updates. */
  ghost predicate Delivered(m: Maths, c: Setting, turns: nat -> Turn, sent: seq<PriceUpdate>) {
    forall i :: 0 <= i < |sent| ==>
      && c.start < c.end && c.base != 0.0
      && turns(i).Tick? && turns(i).sent && sent[i] == ScenarioPrice(m, c, c.start + i * SECOND, turns(i).draw)
  }

  /**
    StreamScenario. `minutes` is an int32; its product with a minute wraps like the source's
    Duration. `turns(i)` is the outcome of the i-th select. It ends after exactly one update per
    second begun, or at the first turn that is cancelled or not sent.
   */
  method StreamScenario(m: Maths, symbol: string, kind: ScenarioType, intensity: Option<real>, priced: Option<real>,
                        start: Time, minutes: int, turns: nat -> Turn)
    returns (sent: seq<PriceUpdate>, ending: Ending)
    requires priced.Some? ==> priced.value != 0.0
    ensures Delivered(m, Settings(symbol, kind, intensity, priced, start, minutes), turns, sent)
    ensures |sent| <= Updates(Wrap64(minutes * MINUTE))
    ensures ending.Completed? <==> |sent| == Updates(Wrap64(minutes * MINUTE))
    ensures ending.ContextDone? ==> turns(|sent|).Cancelled?
    ensures ending.SendFailed? ==> turns(|sent|).Tick? && !turns(|sent|).sent
  {
    hide Updates, ScenarioPrice, Wrap64;
    var base := 100.0;
    if priced.Some? { base := priced.value; }
    ghost var c := Settings(symbol, kind, intensity, priced, start, minutes);
    var duration := Wrap64(minutes * MINUTE);
    var endTime := start + duration;
    var currentTime := start;
    sent, ending := [], Completed;
    while currentTime < endTime
      invariant currentTime == start + |sent| * SECOND
      invariant |sent| > 0 ==> (|sent| - 1) * SECOND < duration
      invariant Delivered(m, c, turns, sent)
      decreases endTime - currentTime
    {
      UpdatesExact(duration, |sent|);
      var turn := turns(|sent|);
      if turn.Cancelled? {
        ending := ContextDone;
        return;
      }
      var update := GenerateScenarioPrice(m, symbol, kind, intensity, base, currentTime, start, endTime, turn.draw);
      if !turn.sent {
        ending := SendFailed;
        return;
      }
      sent := sent + [update];
      currentTime := currentTime + SECOND;
    }
    UpdatesReached(duration, |sent|);
    ending := Completed;
  }

  lemma UpdatesExact(duration: Time, n: nat)
    requires n * SECOND < duration
    ensures n < Updates(duration)
  {
  }

  lemma UpdatesReached(duration: Time, n: nat)
    requires duration <= n * SECOND && (n > 0 ==> (n - 1) * SECOND < duration)
    ensures n == Updates(duration)
  {
  }

  /** A scenario of m minutes takes exactly 60 * m updates, as long as the duration does not overflow, and only then. */
  lemma UpdateCount(minutes: int)
    requires 1 <= minutes < 0x8000_0000
    ensures Updates(Wrap64(minutes * MINUTE)) == 60 * minutes <==> minutes <= 153_722_867
  {
    var d := Wrap64(minutes * MINUTE);
    if minutes <= 153_722_867 {
      assert d == minutes * MINUTE == 60 * minutes * SECOND;
    } else if d > 0 {
      assert Updates(d) <= (INT64_MAX + SECOND - 1) / SECOND;
    }
  }

  // ---- progress ----

  lemma ProgressBounds(now: Time, later: Time, start: Time, end: Time)
    requires start <= now <= later < end
    ensures 0.0 <= Progress(now, start, end) <= Progress(later, start, end) < 1.0
  {
    var a, b, d := (now - start) as real, (later - start) as real, (end - start) as real;
    assert 0.0 <= a <= b < d;
    QuotientBounds(a, b, d);
  }

  /** The square root is monotone on [0, 1], and stays below one. */
  lemma SqrtMonotone(m: Maths, x: real, y: real)
    requires Sound(m) && 0.0 <= x <= y < 1.0
    ensures 0.0 <= m.sqrt(x) <= m.sqrt(y) <= 1.0
  {
    assert m.sqrt(x) * m.sqrt(x) == x && m.sqrt(y) * m.sqrt(y) == y;
    SquareOrder(m.sqrt(x), m.sqrt(y));
    SquareOrder(m.sqrt(y), 1.0);
  }

  // ---- price laws, between any two instants of a scenario ----

  function Factor(m: Maths, c: Setting, now: Time): real
    requires c.start < c.end
  {
    Multiplier(m, c.kind, c.intensity, Progress(now, c.start, c.end))
  }

  /** The price of the update at an instant of a scenario. */
  function PriceAt(m: Maths, c: Setting, now: Time): (p: real)
    requires c.start < c.end && c.base != 0.0
    ensures forall draw :: ScenarioPrice(m, c, now, draw).price == p
  {
    Times(c.base, Factor(m, c, now))
  }

  ghost predicate InScenario(c: Setting, now: Time, later: Time) {
    c.start <= now <= later < c.end && c.base > 0.0
  }

  /** How the multiplier depends on the product of the excess intensity and its shape. */
  lemma CrashShape(m: Maths, c: Setting, now: Time)
    requires c.start < c.end && c.kind.Crash?
    ensures Factor(m, c, now) == 1.0 - 0.5 * Times(c.intensity - 1.0, Progress(now, c.start, c.end))
  {
  }

  lemma RallyShape(m: Maths, c: Setting, now: Time)
    requires c.start < c.end && c.kind.Rally?
    ensures Factor(m, c, now) == 1.0 + Times(c.intensity - 1.0, m.sqrt(Progress(now, c.start, c.end)))
  {
  }

  lemma DivergenceShape(m: Maths, c: Setting, now: Time)
    requires c.start < c.end && c.kind.Divergence?
    ensures Factor(m, c, now) == 1.0 + Times((c.intensity - 1.0) * 0.1, m.sin(Progress(now, c.start, c.end) * PI * 4.0))
  {
  }

  lemma MeanRevertingShape(m: Maths, c: Setting, now: Time)
    requires c.start < c.end && c.kind.MeanReverting?
    ensures var p := Progress(now, c.start, c.end);
            Factor(m, c, now) == 1.0 + Times((c.intensity - 1.0) * 0.2, Times(m.exp(-p * 3.0), m.sin(p * PI * 2.0)))
  {
    var p, k := Progress(now, c.start, c.end), (c.intensity - 1.0) * 0.2;
    Regroup(k, m.sin(p * PI * 2.0), m.exp(-p * 3.0));
  }

  lemma Regroup(k: real, s: real, e: real)
    ensures k * s * e == Times(k, Times(e, s))
  {
  }

  lemma CrashFactor(m: Maths, c: Setting, now: Time, later: Time)
    requires InScenario(c, now, later) && c.kind.Crash? && 1.0 <= c.intensity
    ensures 1.0 - (c.intensity - 1.0) * 0.5 <= Factor(m, c, later) <= Factor(m, c, now) <= 1.0
    ensures c.intensity <= 2.0 ==> Factor(m, c, later) > 0.5
  {
    ProgressBounds(now, later, c.start, c.end);
    CrashShape(m, c, now);
    CrashShape(m, c, later);
    hide Progress, Factor, Times;
    var p, q, k := Progress(now, c.start, c.end), Progress(later, c.start, c.end), c.intensity - 1.0;
    TimesUnits(k);
    TimesMono(k, 0.0, p);
    TimesMono(k, p, q);
    TimesMono(k, q, 1.0);
    if c.intensity <= 2.0 {
      TimesUnits(q);
      TimesMono(q, k, 1.0);
      TimesFlip(q, k);
    }
  }

  /** A crash never rises, and stays above (3 - I) / 2 of the base: above half of it for I <= 2. */
  lemma CrashFalls(m: Maths, c: Setting, now: Time, later: Time)
    requires InScenario(c, now, later) && c.kind.Crash? && 1.0 <= c.intensity
    ensures PriceAt(m, c, later) <= PriceAt(m, c, now) <= c.base
    ensures PriceAt(m, c, later) >= c.base * (1.0 - (c.intensity - 1.0) * 0.5)
    ensures c.intensity <= 2.0 ==> PriceAt(m, c, later) > c.base * 0.5
  {
    CrashFactor(m, c, now, later);
    hide Factor, ScenarioPrice, Times;
    var floor := 1.0 - (c.intensity - 1.0) * 0.5;
    TimesUnits(c.base);
    TimesMono(c.base, Factor(m, c, later), Factor(m, c, now));
    TimesMono(c.base, Factor(m, c, now), 1.0);
    TimesMono(c.base, floor, Factor(m, c, later));
    TimesIs(c.base, floor);
    TimesIs(c.base, 0.5);
    if c.intensity <= 2.0 { TimesStrict(c.base, 0.5, Factor(m, c, later)); }
  }

  lemma RallyFactor(m: Maths, c: Setting, now: Time, later: Time)
    requires Sound(m) && InScenario(c, now, later) && c.kind.Rally? && 1.0 <= c.intensity
    ensures 1.0 <= Factor(m, c, now) <= Factor(m, c, later) <= c.intensity
  {
    ProgressBounds(now, later, c.start, c.end);
    RallyShape(m, c, now);
    RallyShape(m, c, later);
    var p, q, k := Progress(now, c.start, c.end), Progress(later, c.start, c.end), c.intensity - 1.0;
    SqrtMonotone(m, p, q);
    hide Progress, Sound, Factor, Times;
    TimesUnits(k);
    TimesMono(k, 0.0, m.sqrt(p));
    TimesMono(k, m.sqrt(p), m.sqrt(q));
    TimesMono(k, m.sqrt(q), 1.0);
  }

  /** A rally never falls, and stays between the base and I times the base. */
  lemma RallyRises(m: Maths, c: Setting, now: Time, later: Time)
    requires Sound(m) && InScenario(c, now, later) && c.kind.Rally? && 1.0 <= c.intensity
    ensures c.base <= PriceAt(m, c, now) <= PriceAt(m, c, later) <= c.base * c.intensity
  {
    RallyFactor(m, c, now, later);
    hide Factor, ScenarioPrice, Sound, Times;
    TimesUnits(c.base);
    TimesMono(c.base, 1.0, Factor(m, c, now));
    TimesMono(c.base, Factor(m, c, now), Factor(m, c, later));
    TimesMono(c.base, Factor(m, c, later), c.intensity);
    TimesIs(c.base, c.intensity);
  }

  /** A factor within k of one keeps the price within k times the base of the base. */
  lemma PriceWithin(m: Maths, c: Setting, now: Time, k: real)
    requires InScenario(c, now, now) && 1.0 - k <= Factor(m, c, now) <= 1.0 + k
    ensures c.base - c.base * k <= PriceAt(m, c, now) <= c.base + c.base * k
  {
    BaseTimes(c.base, k);
    hide Factor, ScenarioPrice, Times;
    TimesMono(c.base, 1.0 - k, Factor(m, c, now));
    TimesMono(c.base, Factor(m, c, now), 1.0 + k);
  }

  lemma BaseTimes(base: real, k: real)
    ensures Times(base, 1.0 - k) == base - base * k && Times(base, 1.0 + k) == base + base * k
  {
  }

  /** A divergence stays within a tenth of (I - 1) times the base. */
  lemma DivergenceStaysClose(m: Maths, c: Setting, now: Time)
    requires Sound(m) && InScenario(c, now, now) && c.kind.Divergence? && 1.0 <= c.intensity
    ensures var k := (c.intensity - 1.0) * 0.1;
            c.base - c.base * k <= PriceAt(m, c, now) <= c.base + c.base * k
  {
    DivergenceShape(m, c, now);
    var k := (c.intensity - 1.0) * 0.1;
    Swing(k, m.sin(Progress(now, c.start, c.end) * PI * 4.0));
    hide Factor, ScenarioPrice, Times, Progress;
    PriceWithin(m, c, now, k);
  }

  /** A mean-reverting scenario stays within a fifth of (I - 1) times the base. */
  lemma MeanRevertingStaysClose(m: Maths, c: Setting, now: Time)
    requires Sound(m) && InScenario(c, now, now) && c.kind.MeanReverting? && 1.0 <= c.intensity
    ensures var k := (c.intensity - 1.0) * 0.2;
            c.base - c.base * k <= PriceAt(m, c, now) <= c.base + c.base * k
  {
    MeanRevertingShape(m, c, now);
    ProgressBounds(now, now, c.start, c.end);
    var p, k := Progress(now, c.start, c.end), (c.intensity - 1.0) * 0.2;
    hide Factor, ScenarioPrice, Times, Progress;
    var s, e := m.sin(p * PI * 2.0), m.exp(-p * 3.0);
    assert -p * 3.0 <= 0.0;
    Swing(e, s);
    Swing(k, Times(e, s));
    PriceWithin(m, c, now, k);
  }

  // ---- the same laws over a delivered stream ----

  /** What StreamScenario delivers. */
  ghost predicate Stream(m: Maths, c: Setting, turns: nat -> Turn, sent: seq<PriceUpdate>) {
    Delivered(m, c, turns, sent) && |sent| <= Updates(c.end - c.start) && c.base > 0.0
  }

  lemma DeliveredPrices(m: Maths, c: Setting, turns: nat -> Turn, sent: seq<PriceUpdate>, i: nat, j: nat)
    requires Stream(m, c, turns, sent) && i <= j < |sent|
    ensures InScenario(c, c.start + i * SECOND, c.start + j * SECOND)
    ensures sent[i].price == PriceAt(m, c, c.start + i * SECOND) && sent[j].price == PriceAt(m, c, c.start + j * SECOND)
  {
    hide Factor, Multiplier;
    assert j < Updates(c.end - c.start);
  }

  /** Along a crash stream with I in [1, 2] prices never rise and stay in (base / 2, base]. */
  lemma CrashStream(m: Maths, c: Setting, turns: nat -> Turn, sent: seq<PriceUpdate>, i: nat, j: nat)
    requires Stream(m, c, turns, sent) && i <= j < |sent| && c.kind.Crash? && 1.0 <= c.intensity <= 2.0
    ensures c.base * 0.5 < sent[j].price <= sent[i].price <= c.base
  {
    DeliveredPrices(m, c, turns, sent, i, j);
    hide Stream, PriceAt;
    CrashFalls(m, c, c.start + i * SECOND, c.start + j * SECOND);
  }

  /** Along a rally stream with I >= 1 prices never fall and stay in [base, I * base]. */
  lemma RallyStream(m: Maths, c: Setting, turns: nat -> Turn, sent: seq<PriceUpdate>, i: nat, j: nat)
    requires Sound(m) && Stream(m, c, turns, sent) && i <= j < |sent| && c.kind.Rally? && 1.0 <= c.intensity
    ensures c.base <= sent[i].price <= sent[j].price <= c.base * c.intensity
  {
    DeliveredPrices(m, c, turns, sent, i, j);
    hide Stream, PriceAt;
    RallyRises(m, c, c.start + i * SECOND, c.start + j * SECOND);
  }

  /** Along an oscillating stream with I >= 1 prices stay within a tenth, or a fifth, of (I - 1) times the base. */
  lemma OscillatingStream(m: Maths, c: Setting, turns: nat -> Turn, sent: seq<PriceUpdate>, i: nat)
    requires Sound(m) && Stream(m, c, turns, sent) && i < |sent| && 1.0 <= c.intensity
    requires c.kind.Divergence? || c.kind.MeanReverting?
    ensures var k := (c.intensity - 1.0) * if c.kind.Divergence? then 0.1 else 0.2;
            c.base - c.base * k <= sent[i].price <= c.base + c.base * k
  {
    DeliveredPrices(m, c, turns, sent, i, i);
    hide Stream, PriceAt;
    if c.kind.Divergence? {
      DivergenceStaysClose(m, c, c.start + i * SECOND);
    } else {
      MeanRevertingStaysClose(m, c, c.start + i * SECOND);
    }
  }

  // ---- the price law, spelled out ----

  /** The price of a scenario of each kind at a share `p` of its length. */
  lemma PriceLaw(m: Maths, c: Setting, now: Time, draw: real, p: real)
    requires c.start < c.end && c.base != 0.0 && p == (now - c.start) as real / (c.end - c.start) as real
    ensures var u, i := ScenarioPrice(m, c, now, draw), c.intensity;
            && u.symbol == c.symbol && u.timestamp == now && u.volume == 1000.0 + draw * 9000.0 * i
            && u.change == ChangeOf(u.price, c.base, u.volume)
            && (c.kind.Rally? ==> u.price == c.base * (1.0 + (i - 1.0) * m.sqrt(p)))
            && (c.kind.Crash? ==> u.price == c.base * (1.0 - (i - 1.0) * p * 0.5))
            && (c.kind.Divergence? ==> u.price == c.base * (1.0 + (i - 1.0) * 0.1 * m.sin(p * 3.141592653589793 * 4.0)))
            && (c.kind.MeanReverting? ==>
                  u.price == c.base * (1.0 + (i - 1.0) * 0.2 * m.sin(p * 3.141592653589793 * 2.0) * m.exp(-p * 3.0)))
            && (c.kind.VolatilitySpike? || c.kind.Consolidation? ==> u.price == c.base)
  {
    hide ChangeOf;
  }

  lemma ShareOfSeconds(i: nat, n: nat)
    requires n > 0
    ensures (i * SECOND) as real / (n * SECOND) as real == i as real / n as real
  {
    var x := i as real / n as real;
    assert Times(n as real, x) == i as real;
    assert (i * SECOND) as real == i as real * 1_000_000_000.0 && (n * SECOND) as real == n as real * 1_000_000_000.0;
    assert Times((n * SECOND) as real, x) == (i * SECOND) as real by { ThreeFactors(n as real, 1_000_000_000.0, x); }
  }

  lemma ThreeFactors(a: real, b: real, x: real)
    ensures Times(a * b, x) == b * Times(a, x)
  {
  }

  /**
    What StreamScenario delivers for m minutes, m up to 153722867: its i-th update is stamped start +
    i seconds and priced at the share i / 60m of the scenario, from the quote (100 without one) and
    the requested intensity (1 without parameters).
   */
  lemma StreamLaw(m: Maths, symbol: string, kind: ScenarioType, intensity: Option<real>, priced: Option<real>,
                  start: Time, minutes: int, turns: nat -> Turn, sent: seq<PriceUpdate>, i: nat, c: Setting)
    requires Delivered(m, Settings(symbol, kind, intensity, priced, start, minutes), turns, sent) && i < |sent|
    requires 1 <= minutes <= 153_722_867 && c == Settings(symbol, kind, intensity, priced, start, minutes)
    ensures c.symbol == symbol && c.kind == kind && c.start == start && c.end == start + minutes * 60_000_000_000
    ensures c.intensity == (if intensity.Some? then intensity.value else 1.0)
    ensures c.base == (if priced.Some? then priced.value else 100.0) && c.base != 0.0
    ensures sent[i].timestamp == start + i * 1_000_000_000
    ensures Progress(sent[i].timestamp, c.start, c.end) == i as real / (60 * minutes) as real
    ensures turns(i).Tick? && sent[i] == ScenarioPrice(m, c, sent[i].timestamp, turns(i).draw)
  {
    hide ScenarioPrice, Wrap64;
    assert Wrap64(minutes * MINUTE) == minutes * MINUTE;
    assert c.end - c.start == (60 * minutes) * SECOND;
    assert sent[i] == ScenarioPrice(m, c, start + i * SECOND, turns(i).draw);
    Stamped(m, c, start + i * SECOND, turns(i).draw);
    hide Settings, Delivered;
    assert sent[i].timestamp - c.start == i * SECOND;
    ShareOfSeconds(i, 60 * minutes);
  }

  lemma Stamped(m: Maths, c: Setting, now: Time, draw: real)
    requires c.start < c.end && c.base != 0.0
    ensures ScenarioPrice(m, c, now, draw).timestamp == now
  {
  }

  /** So the i-th price of a crash is the base less a share of it that grows by the second. */
  lemma CrashPrice(m: Maths, symbol: string, intensity: Option<real>, priced: Option<real>,
                   start: Time, minutes: int, turns: nat -> Turn, sent: seq<PriceUpdate>, i: nat)
    requires Delivered(m, Settings(symbol, Crash, intensity, priced, start, minutes), turns, sent) && i < |sent|
    requires 1 <= minutes <= 153_722_867
    ensures var base, excess := if priced.Some? then priced.value else 100.0, if intensity.Some? then intensity.value - 1.0 else 0.0;
            sent[i].price == base * (1.0 - excess * (i as real / (60 * minutes) as real) * 0.5)
  {
    var c := Settings(symbol, Crash, intensity, priced, start, minutes);
    StreamLaw(m, symbol, Crash, intensity, priced, start, minutes, turns, sent, i, c);
    hide Delivered, Settings;
    PriceLaw(m, c, sent[i].timestamp, turns(i).draw, i as real / (60 * minutes) as real);
  }
}
