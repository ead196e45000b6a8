/**
  GenerateSimulation: an hourly random walk as history, and a second series derived from it point
  by point according to the simulation type.
 */
module Simulation {
  import opened Common
  import opened Reals

  datatype SimulationType = StatisticalSimilarity | MonteCarlo | BrownianMotion | MeanReversion | TrendFollowing

  datatype PricePoint = PricePoint(timestamp: Time, open: real, high: real, low: real, close: real, volume: real)

  /** The request's parameters as far as they are used. */
  datatype Parameters = Parameters(volatility: real, trend: real)

  /** Draws for one point: two uniform ones from [0, 1) and, for Monte Carlo, the growth factor. */
  datatype Draws = Draws(price: real, volume: real, growth: real)

  predicate Drawn(d: Draws) {
    0.0 <= d.price < 1.0 && 0.0 <= d.volume < 1.0 && d.growth > 0.0
  }

  const INITIAL_PRICE: real := 100.0

  /** The number of full or begun hours from start to end. */
  function Hours(start: Time, end: Time): nat {
    if end <= start then 0 else (end - start + HOUR - 1) / HOUR
  }

  /** The close from which the i-th point of a history walks on. */
  function Before(data: seq<PricePoint>, i: nat): real
    requires i <= |data|
  {
    if i == 0 then INITIAL_PRICE else data[i - 1].close
  }

  /** The close moves by at most one percent, and the other prices of the point hang on it. */
  predicate Walks(p: PricePoint, last: real) {
    && last * 0.99 <= p.close <= last * 1.01
    && p.open == p.close && p.high == p.close * 1.005 && p.low == p.close * 0.995
    && 1000.0 <= p.volume < 6000.0
  }

  ghost predicate History(data: seq<PricePoint>, start: Time) {
    forall i :: 0 <= i < |data| ==> data[i].timestamp == start + i * HOUR && Walks(data[i], Before(data, i))
  }

  lemma WalkStep(last: real, d: Draws)
    requires last > 0.0 && Drawn(d)
    ensures var p := last * (1.0 + (d.price - 0.5) * 0.02); last * 0.99 <= p <= last * 1.01 && p > 0.0
  {
    var f := 1.0 + (d.price - 0.5) * 0.02;
    TimesIs(last, f);
    TimesIs(last, 0.99);
    TimesIs(last, 1.01);
    TimesMono(last, 0.99, f);
    TimesMono(last, f, 1.01);
    TimesUnits(last);
    TimesStrict(last, 0.0, f);
  }

  /** The close is an affine function of the draw: 0.99 of the last one at 0, the last one at 1/2. */
  predicate WalksBy(p: PricePoint, last: real, d: Draws) {
    p.close == last * 0.99 + last * d.price / 50.0 && p.volume == 1000.0 + d.volume * 5000.0
  }

  lemma WalkIsAffine(last: real, x: real)
    ensures last * (1.0 + (x - 0.5) * 0.02) == last * 0.99 + last * x / 50.0
  {
    assert 1.0 + (x - 0.5) * 0.02 == 0.99 + x / 50.0;
    TimesIs(last, 0.99 + x / 50.0);
    Apportion(last, 0.99, x);
  }

  lemma Apportion(k: real, a: real, x: real)
    ensures Times(k, a + x / 50.0) == k * a + k * x / 50.0
  {
  }

  /** One step of the random walk. */
  method NextPoint(current: Time, last: real, d: Draws) returns (p: PricePoint)
    requires last > 0.0 && Drawn(d)
    ensures p.timestamp == current && Walks(p, last) && p.close > 0.0
    ensures WalksBy(p, last, d)
  {
    var change := (d.price - 0.5) * 0.02;
    var basePrice := last * (1.0 + change);
    WalkStep(last, d);
    WalkIsAffine(last, d.price);
    VolumeBounds(d);
    p := PricePoint(current, basePrice, basePrice * 1.005, basePrice * 0.995, basePrice, 1000.0 + d.volume * 5000.0);
  }

  method GenerateHistoricalData(start: Time, end: Time, draws: nat -> Draws) returns (data: seq<PricePoint>)
    requires forall i :: Drawn(draws(i))
    ensures |data| == Hours(start, end) && History(data, start)
    ensures forall i :: 0 <= i < |data| ==> data[i].timestamp == start + i * 3_600_000_000_000 < end
    ensures start + |data| * 3_600_000_000_000 >= end
    ensures Drawing(data, draws)
  {
    hide Hours, Drawn, History, Walks, WalksBy, Drawing;
    data := [];
    var basePrice := INITIAL_PRICE;
    var current := start;
    assert History([], start) && Drawing([], draws) by { NoHistory(start); NothingDrawn(draws); }
    while current < end
      invariant current == start + |data| * HOUR && (|data| > 0 ==> current - HOUR < end)
      invariant basePrice == Before(data, |data|) && basePrice > 0.0
      invariant History(data, start) && forall i :: 0 <= i < |data| ==> data[i].timestamp < end
      invariant Drawing(data, draws)
      decreases end - current
    {
      var point := NextPoint(current, basePrice, draws(|data|));
      HistoryExtended(data, start, point);
      DrawingExtended(data, draws, point);
      basePrice := point.close;
      data := data + [point];
      current := current + HOUR;
    }
    HoursReached(start, end, |data|);
    Hourly(data, start);
  }

  /** Every point walks on from the close before it, the first one from 100, as its own draw says. */
  ghost predicate Drawing(data: seq<PricePoint>, draws: nat -> Draws) {
    forall i :: 0 <= i < |data| ==> DrawnFrom(data, i, draws(i))
  }

  predicate DrawnFrom(data: seq<PricePoint>, i: nat, d: Draws)
    requires i < |data|
  {
    WalksBy(data[i], if i == 0 then 100.0 else data[i - 1].close, d)
  }

  lemma DrawingExtended(data: seq<PricePoint>, draws: nat -> Draws, p: PricePoint)
    requires Drawing(data, draws) && WalksBy(p, Before(data, |data|), draws(|data|))
    ensures Drawing(data + [p], draws)
  {
    hide WalksBy;
    var more := data + [p];
    forall i | 0 <= i < |more| ensures DrawnFrom(more, i, draws(i)) {
      if i < |data| { assert DrawnFrom(data, i, draws(i)); }
    }
  }

  /** Of two points walking on from the same close the one with the larger draw is the higher. */
  lemma LargerDrawHigherClose(p: PricePoint, q: PricePoint, last: real, d: Draws, e: Draws)
    requires last > 0.0 && WalksBy(p, last, d) && WalksBy(q, last, e)
    ensures p.close < q.close <==> d.price < e.price
    ensures p.close == last <==> d.price == 0.5
    ensures p.volume < q.volume <==> d.volume < e.volume
  {
    assert p.close == last * 0.99 + Times(last, d.price) / 50.0 && q.close == last * 0.99 + Times(last, e.price) / 50.0;
    TimesIs(last, 0.5);
    hide Times;
    if d.price < e.price { TimesStrict(last, d.price, e.price); } else { TimesMono(last, e.price, d.price); }
    if d.price < 0.5 { TimesStrict(last, d.price, 0.5); } else if d.price > 0.5 { TimesStrict(last, 0.5, d.price); }
  }

  lemma Hourly(data: seq<PricePoint>, start: Time)
    requires History(data, start)
    ensures forall i :: 0 <= i < |data| ==> data[i].timestamp == start + i * 3_600_000_000_000
  {
    hide Walks;
  }

  lemma NothingDrawn(draws: nat -> Draws)
    ensures Drawing([], draws)
  {
  }

  lemma NoHistory(start: Time)
    ensures History([], start)
  {
  }

  lemma VolumeBounds(d: Draws)
    requires Drawn(d)
    ensures 1000.0 <= 1000.0 + d.volume * 5000.0 < 6000.0
  {
  }

  lemma HistoryExtended(data: seq<PricePoint>, start: Time, p: PricePoint)
    requires History(data, start) && p.timestamp == start + |data| * HOUR && Walks(p, Before(data, |data|))
    ensures History(data + [p], start) && Before(data + [p], |data| + 1) == p.close
  {
    hide Walks;
    forall i | 0 <= i <= |data| ensures Before(data + [p], i) == Before(data, i) { }
  }

  lemma HoursReached(start: Time, end: Time, n: nat)
    requires end <= start + n * HOUR && (n > 0 ==> start + (n - 1) * HOUR < end)
    ensures n == Hours(start, end) && start + n * 3_600_000_000_000 >= end
  {
  }

  /** The i-th close, counted from zero, lies between 100 * 0.99^(i+1) and 100 * 1.01^(i+1). */
  lemma {:induction false} HistoryStaysInCone(data: seq<PricePoint>, start: Time, i: nat)
    requires History(data, start) && i < |data|
    ensures Times(INITIAL_PRICE, Pow(0.99, i + 1)) <= data[i].close <= Times(INITIAL_PRICE, Pow(1.01, i + 1))
    ensures data[i].close > 0.0
  {
    assert Walks(data[i], Before(data, i));
    if i == 0 {
      TimesUnits(INITIAL_PRICE);
      ConeStep(1.0, 1.0, INITIAL_PRICE, data[i].close);
      assert Pow(0.99, 1) == Times(0.99, Pow(0.99, 0)) && Pow(1.01, 1) == Times(1.01, Pow(1.01, 0));
    } else {
      HistoryStaysInCone(data, start, i - 1);
      ConeStep(Pow(0.99, i), Pow(1.01, i), data[i - 1].close, data[i].close);
    }
  }

  lemma ConeStep(lo: real, hi: real, last: real, next: real)
    requires Times(INITIAL_PRICE, lo) <= last <= Times(INITIAL_PRICE, hi) && last > 0.0
    requires last * 0.99 <= next <= last * 1.01
    ensures Times(INITIAL_PRICE, Times(0.99, lo)) <= next <= Times(INITIAL_PRICE, Times(1.01, hi)) && next > 0.0
  {
    assert Times(INITIAL_PRICE, Times(0.99, lo)) == 0.99 * Times(INITIAL_PRICE, lo);
    assert Times(INITIAL_PRICE, Times(1.01, hi)) == 1.01 * Times(INITIAL_PRICE, hi);
    hide Times;
    assert next >= 0.99 * last;
  }

  // ---- the simulated series ----

  function Volatility(params: Option<Parameters>): real {
    if params.Some? then params.value.volatility else 1.0
  }

  /** The factor the simulation type applies to a historical close. */
  function Shift(kind: SimulationType, volatility: real, d: Draws): real {
    match kind
    case StatisticalSimilarity => 1.0 + (d.price - 0.5) * 0.01 * volatility
    case MonteCarlo => d.growth
    case _ => 1.0
  }

  /** The trend is applied to the close of every point but the first. */
  function Trend(params: Option<Parameters>, i: nat): real {
    if params.Some? && i > 0 then 1.0 + params.value.trend * 0.001 else 1.0
  }

  function Simulated(h: PricePoint, kind: SimulationType, params: Option<Parameters>, i: nat, d: Draws): PricePoint {
    var price := h.close * Shift(kind, Volatility(params), d);
    PricePoint(h.timestamp, price, price * 1.005, price * 0.995, price * Trend(params, i), h.volume * (0.8 + d.volume * 0.4))
  }

  /** Each point spelled out: noise in proportion to the volatility, then the trend on the close of every point but the first. */
  lemma SimulatedSpelledOut(h: PricePoint, kind: SimulationType, params: Option<Parameters>, i: nat, d: Draws)
    ensures var s, v := Simulated(h, kind, params, i, d), if params.Some? then params.value.volatility else 1.0;
            && s.timestamp == h.timestamp && s.volume == h.volume * (0.8 + d.volume * 0.4)
            && s.open == h.close * (if kind.StatisticalSimilarity? then 1.0 + (d.price - 0.5) * 0.01 * v
                                    else if kind.MonteCarlo? then d.growth else 1.0)
            && s.high == s.open * 1.005 && s.low == s.open * 0.995
            && s.close == (if params.Some? && i > 0 then s.open * (1.0 + params.value.trend * 0.001) else s.open)
  {
  }

  /** A larger draw gives a larger price if and only if the volatility is positive, and a positive trend raises the close. */
  lemma NoiseAndTrendPoint(h: PricePoint, params: Parameters, i: nat, d: Draws, e: Draws)
    requires h.close > 0.0 && d.price < e.price && i > 0
    ensures var s, u := Simulated(h, StatisticalSimilarity, Some(params), i, d), Simulated(h, StatisticalSimilarity, Some(params), i, e);
            && (s.open < u.open <==> params.volatility > 0.0)
            && (s.open > 0.0 ==> (s.close > s.open <==> params.trend > 0.0))
  {
    var f, g := Shift(StatisticalSimilarity, params.volatility, d), Shift(StatisticalSimilarity, params.volatility, e);
    assert g - f == 0.01 * Times(e.price - d.price, params.volatility) by { NoiseDiffers(d.price, e.price, params.volatility); }
    TimesUnits(e.price - d.price);
    var s := Simulated(h, StatisticalSimilarity, Some(params), i, d);
    assert s.open == Times(h.close, f) && Simulated(h, StatisticalSimilarity, Some(params), i, e).open == Times(h.close, g);
    assert s.close == Times(s.open, 1.0 + params.trend * 0.001);
    hide Times, Shift, Simulated;
    if params.volatility > 0.0 {
      TimesStrict(e.price - d.price, 0.0, params.volatility);
      TimesStrict(h.close, f, g);
    } else {
      TimesMono(e.price - d.price, params.volatility, 0.0);
      TimesMono(h.close, g, f);
    }
    if s.open > 0.0 {
      TimesUnits(s.open);
      if params.trend > 0.0 {
        TimesStrict(s.open, 1.0, 1.0 + params.trend * 0.001);
      } else {
        TimesMono(s.open, 1.0 + params.trend * 0.001, 1.0);
      }
    }
  }

  lemma NoiseDiffers(x: real, y: real, v: real)
    ensures (1.0 + (y - 0.5) * 0.01 * v) - (1.0 + (x - 0.5) * 0.01 * v) == 0.01 * Times(y - x, v)
  {
  }

  method SimulatedPrice(close: real, kind: SimulationType, volatility: real, d: Draws) returns (price: real)
    ensures price == close * Shift(kind, volatility, d)
  {
    match kind {
      case StatisticalSimilarity =>
        var noise := (d.price - 0.5) * 0.01 * volatility;
        price := close * (1.0 + noise);
      case MonteCarlo => price := close * d.growth;
      case _ => price := close;
    }
  }

  method GenerateSimulatedData(data: seq<PricePoint>, kind: SimulationType, params: Option<Parameters>, draws: nat -> Draws)
    returns (simulated: seq<PricePoint>)
    ensures |simulated| == |data|
    ensures forall i :: 0 <= i < |data| ==> simulated[i] == Simulated(data[i], kind, params, i, draws(i))
  {
    hide Shift, Simulated;
    simulated := [];
    var volatility := 1.0;
    if params.Some? { volatility := params.value.volatility; }
    for i := 0 to |data|
      invariant |simulated| == i
      invariant forall k :: 0 <= k < i ==> simulated[k] == Simulated(data[k], kind, params, k, draws(k))
    {
      var h, d := data[i], draws(i);
      var price := SimulatedPrice(h.close, kind, volatility, d);
      var point := PricePoint(h.timestamp, price, price * 1.005, price * 0.995, price, h.volume * (0.8 + d.volume * 0.4));
      simulated := simulated + [point];
      if params.Some? && i > 0 {
        var trend := params.value.trend * 0.001;
        simulated := simulated[i := simulated[i].(close := simulated[i].close * (1.0 + trend))];
      }
      assert simulated[i] == Simulated(h, kind, params, i, d) by { Assembled(h, kind, params, i, d, price, simulated[i]); }
    }
  }

  lemma Assembled(h: PricePoint, kind: SimulationType, params: Option<Parameters>, i: nat, d: Draws, price: real, p: PricePoint)
    requires price == h.close * Shift(kind, Volatility(params), d)
    requires p.timestamp == h.timestamp && p.open == price && p.high == price * 1.005 && p.low == price * 0.995
    requires p.volume == h.volume * (0.8 + d.volume * 0.4)
    requires p.close == if params.Some? && i > 0 then price * (1.0 + params.value.trend * 0.001) else price
    ensures p == Simulated(h, kind, params, i, d)
  {
    hide Shift;
  }

  function Abs(x: real): real {
    if x < 0.0 then -x else x
  }

  /** The noise factor is within half a percent of |volatility| of one, and positive for |volatility| < 200. */
  lemma NoiseBounds(v: real, d: Draws)
    requires Drawn(d)
    ensures 1.0 - 0.005 * Abs(v) <= Shift(StatisticalSimilarity, v, d) <= 1.0 + 0.005 * Abs(v)
    ensures Abs(v) < 200.0 ==> Shift(StatisticalSimilarity, v, d) > 0.0
  {
    var s := (d.price - 0.5) * 2.0;
    Swing(Abs(v), s);
    assert (d.price - 0.5) * 0.01 * v == 0.005 * Times(v, s) by { NoiseRegroup(v, d.price); }
    assert Times(Abs(v), s) == Times(v, s) || Times(Abs(v), s) == -Times(v, s);
  }

  lemma NoiseRegroup(v: real, p: real)
    ensures (p - 0.5) * 0.01 * v == 0.005 * Times(v, (p - 0.5) * 2.0)
  {
  }

  /** The relative deviation a volatility and a trend can cause together. */
  function Deviation(params: Option<Parameters>): real {
    (1.0 + 0.005 * Abs(Volatility(params))) * (1.0 + TrendShare(params)) - 1.0
  }

  predicate Mild(params: Option<Parameters>) {
    Abs(Volatility(params)) < 200.0 && (params.Some? ==> Abs(params.value.trend) <= 5.0)
  }

  /** Positive, with the close between low and high, and close to its historical point. */
  predicate Resembles(s: PricePoint, h: PricePoint, params: Option<Parameters>) {
    && s.open > 0.0 && s.close > 0.0 && s.low <= s.close <= s.high
    && Abs(s.close - h.close) <= Times(h.close, Deviation(params))
  }

  /**
    Statistical similarity, for |volatility| < 200 and |trend| <= 5: every simulated point is
    positive, its close lies between its low and its high, and deviates from the historical close
    by at most (1 + 0.005|v|)(1 + 0.001|t|) - 1.
   */
  lemma SimilarityBounds(h: PricePoint, params: Option<Parameters>, i: nat, d: Draws)
    requires h.close > 0.0 && Drawn(d) && Mild(params)
    ensures Resembles(Simulated(h, StatisticalSimilarity, params, i, d), h, params)
  {
    var f, g := Shift(StatisticalSimilarity, Volatility(params), d), Trend(params, i);
    var a, b := 0.005 * Abs(Volatility(params)), TrendShare(params);
    NoiseBounds(Volatility(params), d);
    TrendBounds(params, i);
    SimulatedShape(h, params, i, d);
    Composite(f, g, a, b);
    hide Times, Shift, Trend, Simulated, Volatility, Abs;
    PointBounds(h.close, f, g, Deviation(params));
    AbsWithin(Times(Times(h.close, f), g) - h.close, Times(h.close, Deviation(params)));
  }

  function TrendShare(params: Option<Parameters>): real {
    0.001 * Abs(if params.Some? then params.value.trend else 0.0)
  }

  lemma TrendBounds(params: Option<Parameters>, i: nat)
    requires Mild(params)
    ensures 1.0 - TrendShare(params) <= Trend(params, i) <= 1.0 + TrendShare(params)
    ensures 0.0 <= TrendShare(params) <= 0.005
  {
  }

  lemma AbsWithin(x: real, bound: real)
    requires -bound <= x <= bound
    ensures Abs(x) <= bound
  {
  }

  /** A close built from two factors is in range when the second is near one, and deviates as the product does. */
  lemma PointBounds(c: real, f: real, g: real, dev: real)
    requires c > 0.0 && f > 0.0 && 0.995 <= g <= 1.005 && -dev <= Times(f, g) - 1.0 <= dev
    ensures Times(c, f) > 0.0 && Times(Times(c, f), g) > 0.0
    ensures Times(c, f) * 0.995 <= Times(Times(c, f), g) <= Times(c, f) * 1.005
    ensures -Times(c, dev) <= Times(Times(c, f), g) - c <= Times(c, dev)
  {
    CloseDeviates(c, f, g, dev);
    hide Times;
    TimesUnits(c);
    TimesStrict(c, 0.0, f);
    LowAndHigh(Times(c, f), g);
    TimesUnits(Times(c, f));
    TimesStrict(Times(c, f), 0.0, g);
    TimesMono(c, -dev, Times(f, g) - 1.0);
    TimesMono(c, Times(f, g) - 1.0, dev);
  }

  lemma SimulatedShape(h: PricePoint, params: Option<Parameters>, i: nat, d: Draws)
    ensures var s := Simulated(h, StatisticalSimilarity, params, i, d);
            var price := Times(h.close, Shift(StatisticalSimilarity, Volatility(params), d));
            && s.open == price && s.close == Times(price, Trend(params, i))
            && s.low == price * 0.995 && s.high == price * 1.005
  {
  }

  /** (1 + x)(1 + y) - 1 is within (1 + a)(1 + b) - 1 of zero when |x| <= a and |y| <= b. */
  lemma Composite(f: real, g: real, a: real, b: real)
    requires 1.0 - a <= f <= 1.0 + a && 1.0 - b <= g <= 1.0 + b && f >= 0.0 && g >= 0.0 && a >= 0.0 && b >= 0.0
    ensures -((1.0 + a) * (1.0 + b) - 1.0) <= Times(f, g) - 1.0 <= (1.0 + a) * (1.0 + b) - 1.0
  {
    var x, y := f - 1.0, g - 1.0;
    ProductOfDeviations(x, y, a, b);
    Expand(x, y);
    Expand(a, b);
    TimesIs(1.0 + a, 1.0 + b);
    NonnegativeProduct(a, b);
    hide Times;
    assert 1.0 + x == f && 1.0 + y == g;
  }

  lemma Expand(x: real, y: real)
    ensures Times(1.0 + x, 1.0 + y) == 1.0 + x + y + Times(x, y)
  {
  }

  lemma NonnegativeProduct(a: real, b: real)
    requires a >= 0.0 && b >= 0.0
    ensures Times(a, b) >= 0.0
  {
  }

  lemma ProductOfDeviations(x: real, y: real, a: real, b: real)
    requires -a <= x <= a && -b <= y <= b
    ensures -Times(a, b) <= Times(x, y) <= Times(a, b)
  {
    Swing2(y, x, a);
    if y >= 0.0 {
      TimesMono(a, y, b);
    } else {
      TimesMono(a, -y, b);
    }
    TimesFlip(x, y);
  }

  lemma Swing2(y: real, x: real, a: real)
    requires -a <= x <= a
    ensures -Times(a, Abs(y)) <= Times(y, x) <= Times(a, Abs(y))
  {
    if y >= 0.0 {
      TimesMono(y, -a, x);
      TimesMono(y, x, a);
    } else {
      TimesMono(-y, -a, x);
      TimesMono(-y, x, a);
    }
  }

  /** The close stays between low and high exactly when its factor is within half a percent of one. */
  lemma LowAndHigh(price: real, g: real)
    requires price > 0.0
    ensures price * 0.995 <= Times(price, g) <= price * 1.005 <==> 0.995 <= g <= 1.005
  {
    TimesIs(price, 0.995);
    TimesIs(price, 1.005);
    hide Times;
    if g < 0.995 { TimesStrict(price, g, 0.995); } else { TimesMono(price, 0.995, g); }
    if g > 1.005 { TimesStrict(price, 1.005, g); } else { TimesMono(price, g, 1.005); }
  }

  lemma CloseDeviates(c: real, f: real, g: real, dev: real)
    ensures Times(Times(c, f), g) - c == Times(c, Times(f, g) - 1.0)
    ensures Times(c, -dev) == -Times(c, dev)
  {
  }

  /**
    For every simulation type, any draws and any parameters: the close of a point lies between its
    low and its high if and only if the simulated price is zero, or it is positive and no trend
    beyond five in absolute value was applied.
   */
  lemma CloseWithinRangeExactly(h: PricePoint, kind: SimulationType, params: Option<Parameters>, i: nat, d: Draws)
    ensures var s := Simulated(h, kind, params, i, d);
            s.low <= s.close <= s.high <==>
            s.open == 0.0 || (s.open > 0.0 && (params.Some? && i > 0 ==> Abs(params.value.trend) <= 5.0))
  {
    var price, g := Simulated(h, kind, params, i, d).open, Trend(params, i);
    assert Simulated(h, kind, params, i, d).close == Times(price, g);
    hide Shift, Simulated, Times;
    if price > 0.0 {
      LowAndHigh(price, g);
    } else if price == 0.0 {
      TimesFlip(price, g);
      TimesUnits(g);
    }
  }

  /** So for statistical similarity with |volatility| < 200 the trend alone decides. */
  lemma SimilarCloseWithinRange(h: PricePoint, params: Parameters, i: nat, d: Draws)
    requires h.close > 0.0 && Drawn(d) && Abs(params.volatility) < 200.0 && i > 0
    ensures var s := Simulated(h, StatisticalSimilarity, Some(params), i, d);
            s.low <= s.close <= s.high <==> Abs(params.trend) <= 5.0
  {
    var f := Shift(StatisticalSimilarity, params.volatility, d);
    NoiseBounds(params.volatility, d);
    SimulatedShape(h, Some(params), i, d);
    TimesUnits(h.close);
    TimesStrict(h.close, 0.0, f);
    CloseWithinRangeExactly(h, StatisticalSimilarity, Some(params), i, d);
    hide Simulated, Shift, Times;
  }

  /** Whatever the simulation type, the volume stays within a fifth of the historical one. */
  lemma VolumeNearHistory(h: PricePoint, kind: SimulationType, params: Option<Parameters>, i: nat, d: Draws)
    requires h.volume > 0.0 && Drawn(d)
    ensures var s := Simulated(h, kind, params, i, d); h.volume * 0.8 <= s.volume < h.volume * 1.2
  {
    hide Shift, Trend;
    var f := 0.8 + d.volume * 0.4;
    TimesMono(h.volume, 0.8, f);
    TimesStrict(h.volume, f, 1.2);
    TimesIs(h.volume, 0.8);
    TimesIs(h.volume, f);
    TimesIs(h.volume, 1.2);
  }

  /** The two series together, as GenerateSimulation returns them. */
  method GenerateSimulation(start: Time, end: Time, kind: SimulationType, params: Option<Parameters>,
                            walk: nat -> Draws, noise: nat -> Draws)
    returns (history: seq<PricePoint>, simulated: seq<PricePoint>)
    requires (forall i :: Drawn(walk(i))) && forall i :: Drawn(noise(i))
    ensures |history| == |simulated| == Hours(start, end) && History(history, start)
    ensures forall i :: 0 <= i < |history| ==> history[i].timestamp == simulated[i].timestamp == start + i * 3_600_000_000_000 < end
    ensures start + |history| * 3_600_000_000_000 >= end && Drawing(history, walk)
    ensures forall i :: 0 <= i < |history| ==> simulated[i] == Simulated(history[i], kind, params, i, noise(i))
    ensures kind.StatisticalSimilarity? && Mild(params) ==>
              forall i :: 0 <= i < |simulated| ==> Resembles(simulated[i], history[i], params)
  {
    hide Walks, WalksBy, Drawing, Simulated, Deviation, Volatility, Abs, Drawn, Times, Hours;
    history := GenerateHistoricalData(start, end, walk);
    simulated := GenerateSimulatedData(history, kind, params, noise);
    forall i | 0 <= i < |history| ensures history[i].timestamp == simulated[i].timestamp == start + i * HOUR {
      SimulatedTime(history[i], kind, params, i, noise(i));
    }
    if kind.StatisticalSimilarity? && Mild(params) {
      forall i | 0 <= i < |simulated| ensures Resembles(simulated[i], history[i], params) {
        HistoryStaysInCone(history, start, i);
        SimilarityBounds(history[i], params, i, noise(i));
      }
    }
  }

  lemma SimulatedTime(h: PricePoint, kind: SimulationType, params: Option<Parameters>, i: nat, d: Draws)
    ensures Simulated(h, kind, params, i, d).timestamp == h.timestamp
  {
  }
}
