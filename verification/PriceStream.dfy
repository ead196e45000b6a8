/**
  The live price stream: at every tick one update per requested symbol, each a small random step
  from the last price of that symbol.
 */
module PriceStream {
  import opened Common
  import opened Reals
  import opened Scenario

  const DEFAULT_PRICE: real := 100.0

  /** A pair of draws, each from [0, 1): one for the price, one for the volume. */
  datatype Draws = Draws(price: real, volume: real)

  predicate Drawn(d: Draws) {
    0.0 <= d.price < 1.0 && 0.0 <= d.volume < 1.0
  }

  function NextPrice(last: real, d: Draws): real {
    last * (1.0 + (d.price - 0.5) * 0.01)
  }

  /** A price within half a percent of the last one. */
  predicate Step(last: real, next: real) {
    last * 0.995 <= next <= last * 1.005
  }

  lemma NextPriceSteps(last: real, d: Draws)
    requires last > 0.0 && Drawn(d)
    ensures Step(last, NextPrice(last, d)) && NextPrice(last, d) > 0.0
  {
    var f := 1.0 + (d.price - 0.5) * 0.01;
    TimesIs(last, f);
    TimesIs(last, 0.995);
    TimesIs(last, 1.005);
    TimesMono(last, 0.995, f);
    TimesMono(last, f, 1.005);
    TimesUnits(last);
    TimesStrict(last, 0.0, f);
  }

  /** The price is an affine function of the draw: 0.995 of the last one at 0, the last one at 1/2. */
  lemma NextPriceIsAffine(last: real, d: Draws)
    ensures NextPrice(last, d) == last * 0.995 + last * d.price / 100.0
  {
    var p := d.price;
    assert 1.0 + (p - 0.5) * 0.01 == 0.995 + p / 100.0;
    Spread(last, 0.995, p / 100.0);
    Share(last, p);
  }

  lemma Spread(k: real, x: real, y: real)
    ensures k * (x + y) == k * x + k * y
  {
  }

  lemma Share(k: real, p: real)
    ensures k * (p / 100.0) == k * p / 100.0
  {
  }

  /** A larger draw gives a larger price, and the middle one leaves it as it is. */
  lemma LargerDrawLargerPrice(last: real, d: Draws, e: Draws)
    requires last > 0.0
    ensures d.price < e.price <==> NextPrice(last, d) < NextPrice(last, e)
    ensures NextPrice(last, d) == last <==> d.price == 0.5
  {
    var f, g := 1.0 + (d.price - 0.5) * 0.01, 1.0 + (e.price - 0.5) * 0.01;
    TimesIs(last, f);
    TimesIs(last, g);
    TimesUnits(last);
    hide Times;
    if f < g { TimesStrict(last, f, g); } else { TimesMono(last, g, f); }
    if f < 1.0 { TimesStrict(last, f, 1.0); } else if f > 1.0 { TimesStrict(last, 1.0, f); }
  }

  /** What the price service answers for a symbol, positive if it answers at all. */
  type Quotes = string -> Option<real>

  ghost predicate Positive(quotes: Quotes) {
    forall s :: quotes(s).Some? ==> quotes(s).value > 0.0
  }

  function Opening(quotes: Quotes, symbol: string): real {
    if quotes(symbol).Some? then quotes(symbol).value else DEFAULT_PRICE
  }

  /** The last price delivered for a symbol, or its opening price. */
  function LastPrice(sent: seq<PriceUpdate>, quotes: Quotes, symbol: string): real {
    if sent == [] then Opening(quotes, symbol)
    else if sent[|sent| - 1].symbol == symbol then sent[|sent| - 1].price
    else LastPrice(sent[..|sent| - 1], quotes, symbol)
  }

  /** A symbol of which nothing was delivered yet stands at its quote, or at 100 without one. */
  lemma {:induction false} NothingSentYet(sent: seq<PriceUpdate>, quotes: Quotes, symbol: string)
    requires forall i :: 0 <= i < |sent| ==> sent[i].symbol != symbol
    ensures LastPrice(sent, quotes, symbol) == if quotes(symbol).Some? then quotes(symbol).value else 100.0
  {
    if sent != [] { NothingSentYet(sent[..|sent| - 1], quotes, symbol); }
  }

  function SumOfChanges(sent: seq<PriceUpdate>, symbol: string): real {
    if sent == [] then 0.0
    else SumOfChanges(sent[..|sent| - 1], symbol) + if sent[|sent| - 1].symbol == symbol then sent[|sent| - 1].change.amount else 0.0
  }

  function CountOf(sent: seq<PriceUpdate>, symbol: string): nat {
    if sent == [] then 0
    else CountOf(sent[..|sent| - 1], symbol) + if sent[|sent| - 1].symbol == symbol then 1 else 0
  }

  /** Every update starts from the price the previous update of its symbol delivered, and moves by one step. */
  ghost predicate Chained(sent: seq<PriceUpdate>, quotes: Quotes) {
    forall i :: 0 <= i < |sent| ==> Follows(sent[i], LastPrice(sent[..i], quotes, sent[i].symbol))
  }

  predicate Follows(u: PriceUpdate, last: real) {
    u.price - u.change.amount == last && Step(last, u.price)
  }

  /** The i-th update moves the last price of its symbol by its own draw. */
  ghost predicate Priced(sent: seq<PriceUpdate>, quotes: Quotes, draws: nat -> Draws) {
    forall i :: 0 <= i < |sent| ==> PricedBy(sent[i], LastPrice(sent[..i], quotes, sent[i].symbol), draws(i))
  }

  predicate PricedBy(u: PriceUpdate, last: real, d: Draws) {
    u.price == last * 0.995 + last * d.price / 100.0 && u.volume == 1000.0 + d.volume * 9000.0
  }

  lemma PricedExtended(sent: seq<PriceUpdate>, quotes: Quotes, draws: nat -> Draws, u: PriceUpdate)
    requires Priced(sent, quotes, draws) && PricedBy(u, LastPrice(sent, quotes, u.symbol), draws(|sent|))
    ensures Priced(sent + [u], quotes, draws)
  {
    hide PricedBy, LastPrice;
    var longer := sent + [u];
    assert longer[..|sent|] == sent;
    forall i | 0 <= i < |longer| ensures PricedBy(longer[i], LastPrice(longer[..i], quotes, longer[i].symbol), draws(i)) {
      if i < |sent| { assert longer[..i] == sent[..i]; }
    }
  }

  lemma ChainedPrefix(sent: seq<PriceUpdate>, quotes: Quotes)
    requires |sent| > 0 && Chained(sent, quotes)
    ensures Chained(sent[..|sent| - 1], quotes)
    ensures var last := |sent| - 1; Follows(sent[last], LastPrice(sent[..last], quotes, sent[last].symbol))
  {
    var front := sent[..|sent| - 1];
    forall i | 0 <= i < |front| ensures Follows(front[i], LastPrice(front[..i], quotes, front[i].symbol)) {
      assert front[..i] == sent[..i] && front[i] == sent[i];
    }
  }

  lemma ChainedExtended(sent: seq<PriceUpdate>, quotes: Quotes, u: PriceUpdate)
    requires Chained(sent, quotes) && Follows(u, LastPrice(sent, quotes, u.symbol))
    ensures Chained(sent + [u], quotes)
    ensures forall s :: LastPrice(sent + [u], quotes, s) == if s == u.symbol then u.price else LastPrice(sent, quotes, s)
  {
    var longer := sent + [u];
    assert longer[..|sent|] == sent;
    forall i | 0 <= i < |longer| ensures Follows(longer[i], LastPrice(longer[..i], quotes, longer[i].symbol)) {
      if i < |sent| { assert longer[..i] == sent[..i]; }
    }
  }

  /** The changes of a symbol telescope to its last delivered price minus its opening price. */
  lemma {:induction false} ChangesTelescope(sent: seq<PriceUpdate>, quotes: Quotes, symbol: string)
    requires Chained(sent, quotes)
    ensures SumOfChanges(sent, symbol) == LastPrice(sent, quotes, symbol) - Opening(quotes, symbol)
  {
    if sent != [] {
      ChainedPrefix(sent, quotes);
      ChangesTelescope(sent[..|sent| - 1], quotes, symbol);
    }
  }

  /** After k updates the price of a symbol is positive and within 0.995^k and 1.005^k of its opening price. */
  lemma {:induction false} PriceStaysInCone(sent: seq<PriceUpdate>, quotes: Quotes, symbol: string)
    requires Chained(sent, quotes) && Positive(quotes)
    ensures var k, p := CountOf(sent, symbol), Opening(quotes, symbol);
            && LastPrice(sent, quotes, symbol) > 0.0
            && Times(p, Pow(0.995, k)) <= LastPrice(sent, quotes, symbol) <= Times(p, Pow(1.005, k))
  {
    var p := Opening(quotes, symbol);
    if sent == [] {
      TimesUnits(p);
    } else {
      var front, u := sent[..|sent| - 1], sent[|sent| - 1];
      ChainedPrefix(sent, quotes);
      PriceStaysInCone(front, quotes, symbol);
      if u.symbol == symbol {
        var k := CountOf(front, symbol);
        StepWidens(p, Pow(0.995, k), Pow(1.005, k), LastPrice(front, quotes, symbol), u.price);
      }
    }
  }

  lemma StepWidens(p: real, lo: real, hi: real, last: real, next: real)
    requires Times(p, lo) <= last <= Times(p, hi) && last > 0.0 && Step(last, next)
    ensures next > 0.0 && Times(p, Times(0.995, lo)) <= next <= Times(p, Times(1.005, hi))
  {
    assert Times(p, Times(0.995, lo)) == 0.995 * Times(p, lo);
    assert Times(p, Times(1.005, hi)) == 1.005 * Times(p, hi);
    hide Times;
    assert next >= 0.995 * last;
  }

  /** The per-stream session object. */
  class StreamSession {
    var lastPrices: map<string, real>

    constructor ()
      ensures lastPrices == map[]
    {
      lastPrices := map[];
    }

    /** generatePriceUpdate: the new price is remembered whether or not the update will be delivered. */
    method GeneratePriceUpdate(symbol: string, now: Time, d: Draws) returns (u: PriceUpdate)
      requires symbol in lastPrices && lastPrices[symbol] > 0.0 && Drawn(d)
      modifies this
      ensures lastPrices == old(lastPrices)[symbol := u.price]
      ensures u.symbol == symbol && u.timestamp == now && u.price == NextPrice(old(lastPrices)[symbol], d)
      ensures Follows(u, old(lastPrices)[symbol]) && u.price > 0.0
      ensures u.price == old(lastPrices)[symbol] * 0.995 + old(lastPrices)[symbol] * d.price / 100.0
      ensures u.volume == 1000.0 + d.volume * 9000.0
      ensures u.change == ChangeOf(u.price, old(lastPrices)[symbol], u.volume) && 1000.0 <= u.volume < 10000.0
    {
      var last := lastPrices[symbol];
      var changePercent := (d.price - 0.5) * 0.01;
      var newPrice := last * (1.0 + changePercent);
      NextPriceSteps(last, d);
      NextPriceIsAffine(last, d);
      var volume := 1000.0 + d.volume * 9000.0;
      lastPrices := lastPrices[symbol := newPrice];
      u := PriceUpdate(symbol, newPrice, volume, now, ChangeOf(newPrice, last, volume));
    }
  }

  /** The session remembers, for each requested symbol, the last delivered price. */
  ghost predicate Remembers(prices: map<string, real>, symbols: seq<string>, sent: seq<PriceUpdate>, quotes: Quotes) {
    forall s :: s in symbols ==> s in prices && prices[s] == LastPrice(sent, quotes, s) && prices[s] > 0.0
  }

  /**
    StreamPrices: `ticks` ticks pass before the context is cancelled, `failing` is the number of the
    send that fails, if any, and `draws(i)` and `clock(i)` belong to the i-th update generated.
   */
  method StreamPrices(symbols: seq<string>, quotes: Quotes, ticks: nat, failing: Option<nat>,
                      draws: nat -> Draws, clock: nat -> Time)
    returns (sent: seq<PriceUpdate>, cancelled: bool)
    requires Positive(quotes) && forall i :: Drawn(draws(i))
    ensures Chained(sent, quotes)
    ensures forall i :: 0 <= i < |sent| ==>
              var last := LastPrice(sent[..i], quotes, sent[i].symbol);
              sent[i].price == last * 0.995 + last * draws(i).price / 100.0 && sent[i].volume == 1000.0 + draws(i).volume * 9000.0
    ensures |sent| > 0 ==> |symbols| > 0
    ensures forall i :: 0 <= i < |sent| ==> sent[i].symbol == symbols[i % |symbols|] && sent[i].timestamp == clock(i)
    ensures failing.Some? ==> |sent| <= failing.value
    ensures cancelled <==> |sent| == ticks * |symbols|
    ensures failing != Some(|sent|) ==> cancelled && |sent| == ticks * |symbols|
    ensures !cancelled ==> failing == Some(|sent|) && |sent| < ticks * |symbols|
  {
    hide LastPrice, Chained, Priced, Remembers, RoundRobin, Drawn, Positive;
    var session := OpenSession(symbols, quotes);
    sent := [];
    NothingSent(symbols, quotes, draws, clock);
    for tick := 0 to ticks
      invariant fresh(session) && Chained(sent, quotes) && Remembers(session.lastPrices, symbols, sent, quotes)
      invariant |sent| == tick * |symbols| && RoundRobin(sent, symbols, clock) && Priced(sent, quotes, draws)
      invariant failing.Some? ==> failing.value >= |sent|
    {
      var ok;
      sent, ok := SendRound(session, symbols, quotes, tick, failing, draws, clock, sent);
      if !ok {
        RoundWithin(tick, ticks, |symbols|, |sent|);
        EachUpdate(sent, symbols, quotes, draws, clock);
        return sent, false;
      }
    }
    EachUpdate(sent, symbols, quotes, draws, clock);
    cancelled := true;
  }

  /** The opening price of every requested symbol. */
  method OpenSession(symbols: seq<string>, quotes: Quotes) returns (session: StreamSession)
    requires Positive(quotes)
    ensures fresh(session) && Remembers(session.lastPrices, symbols, [], quotes)
  {
    session := new StreamSession();
    for i := 0 to |symbols|
      invariant fresh(session)
      invariant Remembers(session.lastPrices, symbols[..i], [], quotes)
    {
      var price := DEFAULT_PRICE;
      if quotes(symbols[i]).Some? { price := quotes(symbols[i]).value; }
      session.lastPrices := session.lastPrices[symbols[i] := price];
    }
    assert symbols[..|symbols|] == symbols;
  }

  lemma NothingSent(symbols: seq<string>, quotes: Quotes, draws: nat -> Draws, clock: nat -> Time)
    ensures Chained([], quotes) && Priced([], quotes, draws) && RoundRobin([], symbols, clock)
  {
  }

  /** What the loop's predicates say of each update. */
  lemma EachUpdate(sent: seq<PriceUpdate>, symbols: seq<string>, quotes: Quotes, draws: nat -> Draws, clock: nat -> Time)
    requires Priced(sent, quotes, draws) && RoundRobin(sent, symbols, clock)
    ensures forall i :: 0 <= i < |sent| ==>
              var last := LastPrice(sent[..i], quotes, sent[i].symbol);
              sent[i].price == last * 0.995 + last * draws(i).price / 100.0 && sent[i].volume == 1000.0 + draws(i).volume * 9000.0
    ensures |sent| > 0 ==> |symbols| > 0
    ensures forall i :: 0 <= i < |sent| ==> sent[i].symbol == symbols[i % |symbols|] && sent[i].timestamp == clock(i)
  {
    hide LastPrice, Priced, RoundRobin;
    EachPrice(sent, quotes, draws);
    EachSymbol(sent, symbols, clock);
  }

  lemma EachPrice(sent: seq<PriceUpdate>, quotes: Quotes, draws: nat -> Draws)
    requires Priced(sent, quotes, draws)
    ensures forall i :: 0 <= i < |sent| ==>
              var last := LastPrice(sent[..i], quotes, sent[i].symbol);
              sent[i].price == last * 0.995 + last * draws(i).price / 100.0 && sent[i].volume == 1000.0 + draws(i).volume * 9000.0
  {
    hide LastPrice;
  }

  lemma EachSymbol(sent: seq<PriceUpdate>, symbols: seq<string>, clock: nat -> Time)
    requires RoundRobin(sent, symbols, clock)
    ensures |sent| > 0 ==> |symbols| > 0
    ensures forall i :: 0 <= i < |sent| ==> sent[i].symbol == symbols[i % |symbols|] && sent[i].timestamp == clock(i)
  {
    if |sent| > 0 { assert InTurn(sent[0], 0, symbols, clock); }
  }

  ghost predicate RoundRobin(sent: seq<PriceUpdate>, symbols: seq<string>, clock: nat -> Time) {
    forall i :: 0 <= i < |sent| ==> InTurn(sent[i], i, symbols, clock)
  }

  /** The i-th update is of the i-th symbol, going round. */
  predicate InTurn(u: PriceUpdate, i: nat, symbols: seq<string>, clock: nat -> Time) {
    |symbols| > 0 && u.symbol == symbols[i % |symbols|] && u.timestamp == clock(i)
  }

  lemma RoundWithin(tick: nat, ticks: nat, n: nat, count: nat)
    requires tick < ticks && count < (tick + 1) * n
    ensures count < ticks * n
  {
    assert (tick + 1) * n <= ticks * n;
  }

  lemma IndexInRound(tick: nat, n: nat, j: nat)
    requires j < n
    ensures (tick * n + j) % n == j && tick * n + j < (tick + 1) * n == tick * n + n
  {
    var total := tick * n + j;
    var q, r := total / n, total % n;
    assert total == q * n + r && (tick + 1) * n == tick * n + n && (q + 1) * n == q * n + n;
    if q < tick { MoreRounds(q + 1, tick, n); }
    if q > tick { MoreRounds(tick + 1, q, n); }
  }

  lemma MoreRounds(a: nat, b: nat, n: nat)
    requires a <= b
    ensures a * n <= b * n
  {
  }

  lemma RemembersOne(prices: map<string, real>, symbols: seq<string>, sent: seq<PriceUpdate>, quotes: Quotes, s: string)
    requires Remembers(prices, symbols, sent, quotes) && s in symbols
    ensures s in prices && prices[s] == LastPrice(sent, quotes, s) && prices[s] > 0.0
  {
    hide LastPrice;
  }

  lemma RemembersExtended(prices: map<string, real>, symbols: seq<string>, sent: seq<PriceUpdate>, quotes: Quotes, u: PriceUpdate)
    requires Remembers(prices, symbols, sent, quotes) && u.price > 0.0
    requires forall s :: LastPrice(sent + [u], quotes, s) == if s == u.symbol then u.price else LastPrice(sent, quotes, s)
    ensures Remembers(prices[u.symbol := u.price], symbols, sent + [u], quotes)
  {
    hide LastPrice;
  }

  lemma RoundRobinExtended(sent: seq<PriceUpdate>, symbols: seq<string>, clock: nat -> Time, u: PriceUpdate)
    requires RoundRobin(sent, symbols, clock)
    requires |symbols| > 0 && u.symbol == symbols[|sent| % |symbols|] && u.timestamp == clock(|sent|)
    ensures RoundRobin(sent + [u], symbols, clock)
  {
  }

  /** One tick: an update for each symbol in turn, until a send fails. */
  method SendRound(session: StreamSession, symbols: seq<string>, quotes: Quotes, tick: nat, failing: Option<nat>,
                   draws: nat -> Draws, clock: nat -> Time, before: seq<PriceUpdate>)
    returns (sent: seq<PriceUpdate>, ok: bool)
    requires Chained(before, quotes) && Remembers(session.lastPrices, symbols, before, quotes)
    requires |before| == tick * |symbols| && RoundRobin(before, symbols, clock) && Priced(before, quotes, draws)
    requires forall i :: Drawn(draws(i))
    requires failing.Some? ==> failing.value >= |before|
    modifies session
    ensures Chained(sent, quotes) && RoundRobin(sent, symbols, clock) && Priced(sent, quotes, draws)
    ensures ok ==> |sent| == (tick + 1) * |symbols| && Remembers(session.lastPrices, symbols, sent, quotes)
    ensures ok ==> failing.Some? ==> failing.value >= |sent|
    ensures !ok ==> failing == Some(|sent|) && |sent| < (tick + 1) * |symbols|
  {
    hide LastPrice, Follows, NextPrice, ChangeOf, Chained, RoundRobin, Drawn, Remembers, Priced;
    sent := before;
    for j := 0 to |symbols|
      invariant |sent| == tick * |symbols| + j
      invariant Chained(sent, quotes) && RoundRobin(sent, symbols, clock) && Priced(sent, quotes, draws)
      invariant Remembers(session.lastPrices, symbols, sent, quotes)
      invariant failing.Some? ==> failing.value >= |sent|
    {
      label turn:
      IndexInRound(tick, |symbols|, j);
      RemembersOne(session.lastPrices, symbols, sent, quotes, symbols[j]);
      var u := session.GeneratePriceUpdate(symbols[j], clock(|sent|), draws(|sent|));
      if failing == Some(|sent|) {
        return sent, false;
      }
      ChainedExtended(sent, quotes, u);
      PricedExtended(sent, quotes, draws, u);
      RemembersExtended(old@turn(session.lastPrices), symbols, sent, quotes, u);
      RoundRobinExtended(sent, symbols, clock, u);
      sent := sent + [u];
    }
    ok := true;
    assert (tick + 1) * |symbols| == tick * |symbols| + |symbols|;
  }
}
