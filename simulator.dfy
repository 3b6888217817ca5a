/** The Monte Carlo driver and the result aggregation of the simulator
    (src/simulator/mod.rs). The random choices of a trial are supplied as
    `DayDraw`s: per day, an index into the trades-per-day pool and the
    indices of the trades drawn from the trade pool. */
module Simulator {
  import opened Wrappers
  import opened Strings
  import opened SimTradeData
  import opened FttAccounts
  import opened SimTrader
  import opened Statistics

  datatype IterationResult = IterationResult(finalBalance: real, endState: EndOfGame, simulationLength: nat)

  datatype DayDraw = DayDraw(countIndex: nat, tradeIndices: seq<nat>)

  /** `*trades_per_day.choose(&mut rng).unwrap_or(&0)`: the drawn count, or 0
      when the pool is empty. */
  function NumTradesToday(tradesPerDay: seq<nat>, d: DayDraw): (n: nat)
    ensures tradesPerDay == [] ==> n == 0
    ensures d.countIndex < |tradesPerDay| ==> n in tradesPerDay
  {
    if d.countIndex < |tradesPerDay| then tradesPerDay[d.countIndex] else 0
  }

  /** A draw the random generator could make: a count index inside a
      non-empty pool, and as many trade indices as the count, each inside
      the trade pool. */
  predicate ValidDraw(trades: seq<TradeRecord>, tradesPerDay: seq<nat>, d: DayDraw) {
    && (tradesPerDay != [] ==> d.countIndex < |tradesPerDay|)
    && |d.tradeIndices| == NumTradesToday(tradesPerDay, d)
    && forall j :: 0 <= j < |d.tradeIndices| ==> d.tradeIndices[j] < |trades|
  }

  predicate ValidDraws(trades: seq<TradeRecord>, tradesPerDay: seq<nat>, draws: seq<DayDraw>) {
    forall k :: 0 <= k < |draws| ==> ValidDraw(trades, tradesPerDay, draws[k])
  }

  /** The day's trades, cloned out of the drawn records. */
  function TradesToday(trades: seq<TradeRecord>, d: DayDraw): (today: seq<Trade>)
    requires forall j :: 0 <= j < |d.tradeIndices| ==> d.tradeIndices[j] < |trades|
    ensures |today| == |d.tradeIndices|
    ensures forall j :: 0 <= j < |today| ==> today[j] == trades[d.tradeIndices[j]].trade
  {
    seq(|d.tradeIndices|, j requires 0 <= j < |d.tradeIndices| => trades[d.tradeIndices[j]].trade)
  }

  /** One trial from the given trader state: days are traded until the
      first one that ends the game, whose bank balance and end state are the
      result; nothing if the supplied days run out first. The simulation
      length reported is the account's, which the simulator's trader never
      advances. */
  function TrialResult(cfg: TraderConfig, rules: FttRules, trades: seq<TradeRecord>, tradesPerDay: seq<nat>,
                       draws: seq<DayDraw>, s: FttState, bank: real): (r: Option<IterationResult>)
    requires ValidDraws(trades, tradesPerDay, draws)
    ensures r.Some? ==> r.value.simulationLength == s.simulationDays
    ensures r.Some? && r.value.endState == TimeOut ==> s.simulationDays >= cfg.maxSimulationDays
    decreases |draws|
  {
    if draws == [] then None
    else
      var d := TradeDayResult(cfg, rules, TradesToday(trades, draws[0]), s, bank);
      if d.0.Some? then Some(IterationResult(d.2, d.0.value, d.1.simulationDays))
      else TrialResult(cfg, rules, trades, tradesPerDay, draws[1..], d.1, d.2)
  }

  /** A finished trial is not affected by further draws: it stops at the
      first day that ends the game. */
  lemma {:induction false} TrialStopsAtFirstEnd(cfg: TraderConfig, rules: FttRules, trades: seq<TradeRecord>,
                                                tradesPerDay: seq<nat>, draws: seq<DayDraw>, more: seq<DayDraw>,
                                                s: FttState, bank: real)
    requires ValidDraws(trades, tradesPerDay, draws) && ValidDraws(trades, tradesPerDay, more)
    requires TrialResult(cfg, rules, trades, tradesPerDay, draws, s, bank).Some?
    ensures ValidDraws(trades, tradesPerDay, draws + more)
    ensures TrialResult(cfg, rules, trades, tradesPerDay, draws + more, s, bank)
         == TrialResult(cfg, rules, trades, tradesPerDay, draws, s, bank)
    decreases |draws|
  {
    assert ValidDraws(trades, tradesPerDay, draws + more) by {
      forall k | 0 <= k < |draws + more|
        ensures ValidDraw(trades, tradesPerDay, (draws + more)[k])
      {
        if k < |draws| { assert (draws + more)[k] == draws[k]; }
        else { assert (draws + more)[k] == more[k - |draws|]; }
      }
    }
    assert (draws + more)[0] == draws[0];
    var d := TradeDayResult(cfg, rules, TradesToday(trades, draws[0]), s, bank);
    if d.0.None? {
      assert (draws + more)[1..] == draws[1..] + more;
      TrialStopsAtFirstEnd(cfg, rules, trades, tradesPerDay, draws[1..], more, d.1, d.2);
    }
  }

  /** Under a tier's own rules the bank is never debited by a day: every
      allowed payout is positive. */
  lemma DayNeverDebitsBank(cfg: TraderConfig, t: FttAccountType, today: seq<Trade>, s: FttState, bank: real)
    ensures TradeDayResult(cfg, TierRules(t), today, s, bank).2 >= bank
  {
    var run := RunTrades(cfg, today, 0, 0.0, s);
    if !run.busted {
      var s1 := WithTradingDay(TierRules(t), TrailedLoss(TierRules(t), run.account), run.dailyPnl);
      if WithdrawalAmount(TierRules(t), s1).Some? {
        WithdrawalAtLeast250(t, s1);
      }
    }
  }

  /** A trial's final bank balance is never below its starting balance, so
      never below minus the account's price. */
  lemma {:induction false} TrialBankNeverBelowStart(cfg: TraderConfig, t: FttAccountType, trades: seq<TradeRecord>,
                                                    tradesPerDay: seq<nat>, draws: seq<DayDraw>, s: FttState, bank: real)
    requires ValidDraws(trades, tradesPerDay, draws)
    requires TrialResult(cfg, TierRules(t), trades, tradesPerDay, draws, s, bank).Some?
    ensures TrialResult(cfg, TierRules(t), trades, tradesPerDay, draws, s, bank).value.finalBalance >= bank
    decreases |draws|
  {
    var d := TradeDayResult(cfg, TierRules(t), TradesToday(trades, draws[0]), s, bank);
    DayNeverDebitsBank(cfg, t, TradesToday(trades, draws[0]), s, bank);
    if d.0.None? {
      TrialBankNeverBelowStart(cfg, t, trades, tradesPerDay, draws[1..], d.1, d.2);
    }
  }

  /** With a positive day limit a trial never times out and always reports
      simulation length 0. */
  lemma NoTimeOutOnFreshAccount(cfg: TraderConfig, t: FttAccountType, trades: seq<TradeRecord>,
                                tradesPerDay: seq<nat>, draws: seq<DayDraw>)
    requires ValidDraws(trades, tradesPerDay, draws) && cfg.maxSimulationDays > 0
    requires TrialResult(cfg, TierRules(t), trades, tradesPerDay, draws, InitialState(t), -TierCost(t)).Some?
    ensures var r := TrialResult(cfg, TierRules(t), trades, tradesPerDay, draws, InitialState(t), -TierCost(t)).value;
      r.endState != TimeOut && r.simulationLength == 0 && r.finalBalance >= -TierCost(t)
  {
    TrialBankNeverBelowStart(cfg, t, trades, tradesPerDay, draws, InitialState(t), -TierCost(t));
  }

  /** One iteration of `monte_carlo_simulation`: a fresh trader of the tier
      trades the drawn days until the game ends. */
  method RunTrial(trades: seq<TradeRecord>, tradesPerDay: seq<nat>, accountType: FttAccountType,
                  maxTradesPerDay: Option<nat>, dailyProfitTarget: Option<real>, dailyStopLoss: Option<real>,
                  maxSimulationDays: nat, maxPayouts: nat, draws: seq<DayDraw>)
    returns (result: Option<IterationResult>)
    requires ValidDraws(trades, tradesPerDay, draws)
    ensures result == TrialResult(TraderConfig(maxTradesPerDay, dailyProfitTarget, dailyStopLoss, maxSimulationDays, maxPayouts),
                                  TierRules(accountType), trades, tradesPerDay, draws,
                                  InitialState(accountType), -TierCost(accountType))
  {
    var trader := new Trader(accountType, maxTradesPerDay, dailyProfitTarget, dailyStopLoss, maxSimulationDays, maxPayouts);
    ghost var cfg := trader.Config();
    ghost var rules := TierRules(accountType);
    var k := 0;
    while k < |draws|
      invariant 0 <= k <= |draws|
      invariant fresh(trader) && fresh(trader.fttAccount)
      invariant trader.Valid() && trader.Config() == cfg && trader.fttAccount.Rules() == rules
      invariant TrialResult(cfg, rules, trades, tradesPerDay, draws, InitialState(accountType), -TierCost(accountType))
             == TrialResult(cfg, rules, trades, tradesPerDay, draws[k..], trader.fttAccount.State(), trader.bankAccount.balance)
    {
      assert draws[k..][0] == draws[k] && draws[k..][1..] == draws[k+1..];
      var tradesToday := TradesToday(trades, draws[k]);
      var dayResult := trader.TradeDay(tradesToday);
      if dayResult.endOfGame.Some? {
        return Some(IterationResult(trader.bankAccount.balance, dayResult.endOfGame.value, trader.fttAccount.simulationDays));
      }
      k := k + 1;
    }
    return None;
  }

  /** `monte_carlo_simulation`, run sequentially: exactly one result per
      iteration, each the trial of its own draws. */
  method MonteCarloSimulation(trades: seq<TradeRecord>, tradesPerDay: seq<nat>, iterations: nat, accountType: FttAccountType,
                              maxTradesPerDay: Option<nat>, dailyProfitTarget: Option<real>, dailyStopLoss: Option<real>,
                              maxSimulationDays: nat, maxPayouts: nat, draws: seq<seq<DayDraw>>)
    returns (results: seq<Option<IterationResult>>)
    requires |draws| == iterations
    requires forall n :: 0 <= n < |draws| ==> ValidDraws(trades, tradesPerDay, draws[n])
    ensures |results| == iterations
    ensures forall n :: 0 <= n < iterations ==>
      results[n] == TrialResult(TraderConfig(maxTradesPerDay, dailyProfitTarget, dailyStopLoss, maxSimulationDays, maxPayouts),
                                TierRules(accountType), trades, tradesPerDay, draws[n],
                                InitialState(accountType), -TierCost(accountType))
  {
    results := [];
    for n := 0 to iterations
      invariant |results| == n
      invariant forall m :: 0 <= m < n ==>
        results[m] == TrialResult(TraderConfig(maxTradesPerDay, dailyProfitTarget, dailyStopLoss, maxSimulationDays, maxPayouts),
                                  TierRules(accountType), trades, tradesPerDay, draws[m],
                                  InitialState(accountType), -TierCost(accountType))
    {
      var r := RunTrial(trades, tradesPerDay, accountType, maxTradesPerDay, dailyProfitTarget, dailyStopLoss,
                        maxSimulationDays, maxPayouts, draws[n]);
      results := results + [r];
    }
  }

  // Aggregation of the trial results.

  const AllEndStates: set<EndOfGame> := {Busted, TimeOut, MaxPayouts}

  function Balances(rs: seq<IterationResult>): (bs: seq<real>)
    ensures |bs| == |rs|
    ensures forall i :: 0 <= i < |rs| ==> bs[i] == rs[i].finalBalance
  {
    seq(|rs|, i requires 0 <= i < |rs| => rs[i].finalBalance)
  }

  function Lengths(rs: seq<IterationResult>): (ds: seq<nat>)
    ensures |ds| == |rs|
    ensures forall i :: 0 <= i < |rs| ==> ds[i] == rs[i].simulationLength
  {
    seq(|rs|, i requires 0 <= i < |rs| => rs[i].simulationLength)
  }

  /** The results that ended in state `e`, in their original order. */
  function WithState(rs: seq<IterationResult>, e: EndOfGame): (r: seq<IterationResult>)
    ensures |r| <= |rs|
    ensures forall i :: 0 <= i < |r| ==> r[i].endState == e
    ensures forall x :: x in r <==> x in rs && x.endState == e
  {
    if rs == [] then []
    else
      var last := rs[|rs| - 1];
      assert rs == rs[..|rs| - 1] + [last];
      WithState(rs[..|rs| - 1], e) + (if last.endState == e then [last] else [])
  }

  lemma WithStateSnoc(rs: seq<IterationResult>, x: IterationResult, e: EndOfGame)
    ensures WithState(rs + [x], e) == WithState(rs, e) + (if x.endState == e then [x] else [])
  {
    assert (rs + [x])[..|rs|] == rs;
  }

  /** The three end states partition the results: their groups' sizes add up
      to the number of results, and their balances together are exactly the
      final balances. */
  lemma {:induction false} EndStatesPartition(rs: seq<IterationResult>)
    ensures Partitioned(rs)
  {
    if rs != [] {
      var init := rs[..|rs| - 1];
      var x := rs[|rs| - 1];
      assert rs == init + [x];
      EndStatesPartition(init);
      PartitionSnoc(init, x);
    }
  }

  ghost predicate Partitioned(rs: seq<IterationResult>) {
    && |WithState(rs, Busted)| + |WithState(rs, TimeOut)| + |WithState(rs, MaxPayouts)| == |rs|
    && multiset(Balances(rs)) ==
      multiset(Balances(WithState(rs, Busted))) + multiset(Balances(WithState(rs, TimeOut)))
      + multiset(Balances(WithState(rs, MaxPayouts)))
  }

  lemma PartitionSnoc(rs: seq<IterationResult>, x: IterationResult)
    requires Partitioned(rs)
    ensures Partitioned(rs + [x])
  {
    var y := rs + [x];
    var fb := multiset{x.finalBalance};
    BalancesSnoc(rs, x);
    assert multiset(Balances(y)) == multiset(Balances(rs)) + fb;
    forall e ensures multiset(Balances(WithState(y, e))) ==
      multiset(Balances(WithState(rs, e))) + (if x.endState == e then fb else multiset{})
    {
      GroupSnoc(rs, x, e);
    }
    forall e ensures |WithState(y, e)| == |WithState(rs, e)| + (if x.endState == e then 1 else 0) {
      WithStateSnoc(rs, x, e);
    }
  }

  lemma GroupSnoc(rs: seq<IterationResult>, x: IterationResult, e: EndOfGame)
    ensures multiset(Balances(WithState(rs + [x], e))) ==
      multiset(Balances(WithState(rs, e))) + (if x.endState == e then multiset{x.finalBalance} else multiset{})
  {
    WithStateSnoc(rs, x, e);
    if x.endState == e {
      BalancesSnoc(WithState(rs, e), x);
    } else {
      assert WithState(rs + [x], e) == WithState(rs, e);
    }
  }

  /** The per-state counts: exactly the states that occur, each with its
      number of results. */
  function CountsOf(rs: seq<IterationResult>): map<EndOfGame, nat> {
    map e | e in AllEndStates && |WithState(rs, e)| > 0 :: |WithState(rs, e)|
  }

  function BalancesByState(rs: seq<IterationResult>): map<EndOfGame, seq<real>> {
    map e | e in AllEndStates && |WithState(rs, e)| > 0 :: Balances(WithState(rs, e))
  }

  function DaysByState(rs: seq<IterationResult>): map<EndOfGame, seq<nat>> {
    map e | e in AllEndStates && |WithState(rs, e)| > 0 :: Lengths(WithState(rs, e))
  }

  lemma EveryEndState(e: EndOfGame)
    ensures e in AllEndStates
  {
  }

  lemma CountsOfSnocAt(rs: seq<IterationResult>, x: IterationResult, e: EndOfGame)
    ensures var c := CountsOf(rs);
      var rhs := c[x.endState := (if x.endState in c then c[x.endState] else 0) + 1];
      (e in CountsOf(rs + [x]) <==> e in rhs) &&
      (e in rhs ==> CountsOf(rs + [x])[e] == rhs[e])
  {
    EveryEndState(e);
    WithStateSnoc(rs, x, e);
  }

  lemma CountsOfSnoc(rs: seq<IterationResult>, x: IterationResult)
    ensures var c := CountsOf(rs);
      CountsOf(rs + [x]) == c[x.endState := (if x.endState in c then c[x.endState] else 0) + 1]
  {
    forall e {
      CountsOfSnocAt(rs, x, e);
    }
  }

  lemma BalancesSnoc(rs: seq<IterationResult>, x: IterationResult)
    ensures Balances(rs + [x]) == Balances(rs) + [x.finalBalance]
  {
  }

  lemma LengthsSnoc(rs: seq<IterationResult>, x: IterationResult)
    ensures Lengths(rs + [x]) == Lengths(rs) + [x.simulationLength]
  {
  }

  lemma BalancesByStateSnocAt(rs: seq<IterationResult>, x: IterationResult, e: EndOfGame)
    ensures var g := BalancesByState(rs);
      var rhs := g[x.endState := (if x.endState in g then g[x.endState] else []) + [x.finalBalance]];
      (e in BalancesByState(rs + [x]) <==> e in rhs) &&
      (e in rhs ==> BalancesByState(rs + [x])[e] == rhs[e])
  {
    EveryEndState(e);
    WithStateSnoc(rs, x, e);
    BalancesSnoc(WithState(rs, e), x);
  }

  lemma BalancesByStateSnoc(rs: seq<IterationResult>, x: IterationResult)
    ensures var g := BalancesByState(rs);
      BalancesByState(rs + [x]) == g[x.endState := (if x.endState in g then g[x.endState] else []) + [x.finalBalance]]
  {
    forall e {
      BalancesByStateSnocAt(rs, x, e);
    }
  }

  lemma DaysByStateSnocAt(rs: seq<IterationResult>, x: IterationResult, e: EndOfGame)
    ensures var g := DaysByState(rs);
      var rhs := g[x.endState := (if x.endState in g then g[x.endState] else []) + [x.simulationLength]];
      (e in DaysByState(rs + [x]) <==> e in rhs) &&
      (e in rhs ==> DaysByState(rs + [x])[e] == rhs[e])
  {
    EveryEndState(e);
    WithStateSnoc(rs, x, e);
    LengthsSnoc(WithState(rs, e), x);
  }

  lemma DaysByStateSnoc(rs: seq<IterationResult>, x: IterationResult)
    ensures var g := DaysByState(rs);
      DaysByState(rs + [x]) == g[x.endState := (if x.endState in g then g[x.endState] else []) + [x.simulationLength]]
  {
    forall e {
      DaysByStateSnocAt(rs, x, e);
    }
  }

  /** One more result, on the prefix the results loop has consumed. */
  lemma CollectStep(results: seq<IterationResult>, i: nat)
    requires i < |results|
    ensures var rs, x := results[..i], results[i];
      var c, g, h := CountsOf(rs), BalancesByState(rs), DaysByState(rs);
      && Balances(results[..i + 1]) == Balances(rs) + [x.finalBalance]
      && Lengths(results[..i + 1]) == Lengths(rs) + [x.simulationLength]
      && CountsOf(results[..i + 1]) == c[x.endState := (if x.endState in c then c[x.endState] else 0) + 1]
      && BalancesByState(results[..i + 1]) == g[x.endState := (if x.endState in g then g[x.endState] else []) + [x.finalBalance]]
      && DaysByState(results[..i + 1]) == h[x.endState := (if x.endState in h then h[x.endState] else []) + [x.simulationLength]]
  {
    assert results[..i + 1] == results[..i] + [results[i]];
    BalancesSnoc(results[..i], results[i]);
    LengthsSnoc(results[..i], results[i]);
    CountsOfSnoc(results[..i], results[i]);
    BalancesByStateSnoc(results[..i], results[i]);
    DaysByStateSnoc(results[..i], results[i]);
  }

  /** The results loop of `run_simulation`: all balances and lengths in
      order, and per end state its count, balances and lengths. */
  method CollectResults(results: seq<IterationResult>)
    returns (finalBalances: seq<real>, aggregateDays: seq<nat>, balancesByEndState: map<EndOfGame, seq<real>>,
             daysByEndState: map<EndOfGame, seq<nat>>, endStateCounts: map<EndOfGame, nat>)
    ensures finalBalances == Balances(results) && aggregateDays == Lengths(results)
    ensures endStateCounts == CountsOf(results)
    ensures balancesByEndState == BalancesByState(results) && daysByEndState == DaysByState(results)
  {
    finalBalances, aggregateDays := [], [];
    balancesByEndState, daysByEndState, endStateCounts := map[], map[], map[];
    for i := 0 to |results|
      invariant finalBalances == Balances(results[..i]) && aggregateDays == Lengths(results[..i])
      invariant endStateCounts == CountsOf(results[..i])
      invariant balancesByEndState == BalancesByState(results[..i]) && daysByEndState == DaysByState(results[..i])
    {
      var result := results[i];
      CollectStep(results, i);
      finalBalances := finalBalances + [result.finalBalance];
      aggregateDays := aggregateDays + [result.simulationLength];
      var e := result.endState;
      endStateCounts := endStateCounts[e := (if e in endStateCounts then endStateCounts[e] else 0) + 1];
      balancesByEndState := balancesByEndState[e := (if e in balancesByEndState then balancesByEndState[e] else []) + [result.finalBalance]];
      daysByEndState := daysByEndState[e := (if e in daysByEndState then daysByEndState[e] else []) + [result.simulationLength]];
    }
    assert results[..|results|] == results;
  }

  /** Each state's share of the iterations, in percent. */
  function EndStatePercentages(counts: map<EndOfGame, nat>, iterations: nat): (p: map<EndOfGame, real>)
    requires iterations > 0 || counts == map[]
    ensures p.Keys == counts.Keys
    ensures forall e :: e in p ==> 0.0 <= p[e] && (counts[e] <= iterations ==> p[e] <= 100.0)
  {
    map e | e in counts :: Share(counts[e], iterations)
  }

  /** `(count as f64 / iterations as f64) * 100.0` */
  function Share(count: nat, iterations: nat): (r: real)
    requires iterations > 0
    ensures 0.0 <= r
    ensures count <= iterations ==> r <= 100.0
  {
    var q := count as real / iterations as real;
    assert count <= iterations ==> q <= 1.0 by {
      if count <= iterations {
        DivideBounds(0.0, count as real, 1.0, iterations as real);
      }
    }
    q * 100.0
  }

  function PercentageOf(p: map<EndOfGame, real>, e: EndOfGame): real {
    if e in p then p[e] else 0.0
  }

  lemma CountsOfAt(rs: seq<IterationResult>, e: EndOfGame)
    ensures e in CountsOf(rs) <==> |WithState(rs, e)| > 0
    ensures e in CountsOf(rs) ==> CountsOf(rs)[e] == |WithState(rs, e)|
  {
    EveryEndState(e);
  }

  lemma PercentagesAt(counts: map<EndOfGame, nat>, iterations: nat, e: EndOfGame)
    requires iterations > 0
    ensures e in EndStatePercentages(counts, iterations) <==> e in counts
    ensures e in counts ==> EndStatePercentages(counts, iterations)[e] == Share(counts[e], iterations)
  {
  }

  lemma PercentageOfCount(rs: seq<IterationResult>, e: EndOfGame)
    requires |rs| > 0
    ensures PercentageOf(EndStatePercentages(CountsOf(rs), |rs|), e)
         == Share(|WithState(rs, e)|, |rs|)
  {
    CountsOfAt(rs, e);
    PercentagesAt(CountsOf(rs), |rs|, e);
  }

  lemma DivAdd(x: real, y: real, d: real)
    requires d > 0.0
    ensures x / d + y / d == (x + y) / d
  {
    var p, q := x / d, y / d;
    assert p * d == x && q * d == y;
    assert (p + q) * d == x + y;
  }

  /** Shares of disjoint counts add up. */
  lemma ShareAdd(a: nat, b: nat, n: nat)
    requires n > 0
    ensures Share(a, n) + Share(b, n) == Share(a + b, n)
  {
    DivAdd(a as real, b as real, n as real);
  }

  lemma ShareSum(b: nat, t: nat, m: nat, n: nat)
    requires n > 0 && b + t + m == n
    ensures Share(b, n) + Share(t, n) + Share(m, n) == 100.0
  {
    ShareAdd(b, t, n);
    ShareAdd(b + t, m, n);
    ShareAll(n);
  }

  lemma ShareAll(n: nat)
    requires n > 0
    ensures Share(n, n) == 100.0
  {
    assert n as real / n as real == 1.0;
  }

  /** When there is one result per iteration the percentages add up to 100. */
  lemma PercentagesSumTo100(rs: seq<IterationResult>)
    requires |rs| > 0
    ensures var p := EndStatePercentages(CountsOf(rs), |rs|);
      PercentageOf(p, Busted) + PercentageOf(p, TimeOut) + PercentageOf(p, MaxPayouts) == 100.0
  {
    var p := EndStatePercentages(CountsOf(rs), |rs|);
    var busted, timeOut, maxPayouts := |WithState(rs, Busted)|, |WithState(rs, TimeOut)|, |WithState(rs, MaxPayouts)|;
    EndStatesPartition(rs);
    PercentageOfCount(rs, Busted);
    PercentageOfCount(rs, TimeOut);
    PercentageOfCount(rs, MaxPayouts);
    ShareSum(busted, timeOut, maxPayouts, |rs|);
    calc {
      PercentageOf(p, Busted) + PercentageOf(p, TimeOut) + PercentageOf(p, MaxPayouts);
      Share(busted, |rs|) + Share(timeOut, |rs|) + Share(maxPayouts, |rs|);
      100.0;
    }
  }

  /** `condition_end_state`, matched case-insensitively; anything that is not
      one of the three states ("all" or an unknown word) conditions on
      nothing. */
  function ParseEndStateFilter(s: string): (r: Option<EndOfGame>)
    ensures r == Some(Busted) <==> ToLower(s) == "busted"
    ensures r == Some(TimeOut) <==> ToLower(s) == "timeout"
    ensures r == Some(MaxPayouts) <==> ToLower(s) == "maxpayouts"
  {
    var lower := ToLower(s);
    if lower == "busted" then Some(Busted)
    else if lower == "timeout" then Some(TimeOut)
    else if lower == "maxpayouts" then Some(MaxPayouts)
    else if lower == "all" then None
    else None
  }

  /** The results the statistics are computed over. */
  function Conditioned(rs: seq<IterationResult>, target: Option<EndOfGame>): (r: seq<IterationResult>)
    ensures target.None? ==> r == rs
    ensures target.Some? ==> forall x :: x in r <==> x in rs && x.endState == target.value
    ensures target.Some? ==> forall i :: 0 <= i < |r| ==> r[i].endState == target.value
  {
    if target.Some? then WithState(rs, target.value) else rs
  }

  function SumNat(ds: seq<nat>): nat {
    if ds == [] then 0 else ds[0] + SumNat(ds[1..])
  }

  datatype SimulationResult = SimulationResult(
    finalBalances: seq<real>,
    meanBalance: real,
    medianBalance: real,
    variance: real,
    mad: real,
    iqr: real,
    madMedian: real,
    meanDays: real,
    endStatePercentages: map<EndOfGame, real>,
    positiveBalancePercentage: real)

  const NoData: string := "No data available for the specified condition_end_state."

  /** The statistics half of `run_simulation`. It fails exactly when no
      result matches the condition; otherwise every statistic is computed
      over the conditioned balances (the order statistics over their sorted
      copy) and the percentages over all results. */
  method SummarizeResults(results: seq<IterationResult>, iterations: nat, conditionEndState: string)
    returns (r: Result<SimulationResult, string>)
    requires iterations > 0 || results == []
    ensures var filtered := Conditioned(results, ParseEndStateFilter(conditionEndState));
      (r.Failure? <==> filtered == []) &&
      (r.Failure? ==> r.error == NoData) &&
      (r.Success? ==>
        var bs := Balances(filtered);
        var sorted := SortAscending(bs);
        r.value == SimulationResult(bs, Mean(bs), Median(sorted), Variance(bs), Mad(bs), Iqr(sorted), MadMedian(sorted),
                                    SumNat(Lengths(filtered)) as real / |filtered| as real,
                                    EndStatePercentages(CountsOf(results), iterations), PositivePercentage(bs)))
  {
    var finalBalances, aggregateDays, balancesByEndState, daysByEndState, endStateCounts := CollectResults(results);
    var endStatePercentages := EndStatePercentages(endStateCounts, iterations);
    var targetEndState := ParseEndStateFilter(conditionEndState);
    var filteredBalances, filteredDays;
    if targetEndState.Some? {
      var e := targetEndState.value;
      filteredBalances := if e in balancesByEndState then balancesByEndState[e] else [];
      filteredDays := if e in daysByEndState then daysByEndState[e] else [];
    } else {
      filteredBalances, filteredDays := finalBalances, aggregateDays;
    }
    ghost var filtered := Conditioned(results, targetEndState);
    assert filteredBalances == Balances(filtered) && filteredDays == Lengths(filtered);
    if filteredBalances == [] {
      return Failure(NoData);
    }
    var meanBalance := Mean(filteredBalances);
    var meanDays := SumNat(filteredDays) as real / |filteredDays| as real;
    var variance := Variance(filteredBalances);
    var mad := Mad(filteredBalances);
    var sortedBalances := SortAscending(filteredBalances);
    assert |sortedBalances| == |multiset(sortedBalances)| == |filteredBalances|;
    var medianBalance := Median(sortedBalances);
    var iqr := Iqr(sortedBalances);
    var madMedian := MadMedian(sortedBalances);
    var positiveBalancePercentage := PositivePercentage(filteredBalances);
    return Success(SimulationResult(filteredBalances, meanBalance, medianBalance, variance, mad, iqr, madMedian,
                                    meanDays, endStatePercentages, positiveBalancePercentage));
  }
}
