/** The older trader (src/trader.rs) over the older FTT account. Its trade
    loop and its settlement are the simulator trader's; because the older
    account counts a simulation day at every end of day, its trials are
    bounded by the day limit. */
module LegacyTrader {
  import opened Wrappers
  import opened SimTradeData
  import F = FttAccounts
  import L = LegacyFtt
  import S = SimTrader

  /** `trade_day` over the older account. A busted day ends before the
      end-of-day update, so it adds no simulation day; every other day adds
      exactly one. A day that ends the game by time has reached the limit,
      and a day that does not end the game is still below it. */
  function TradeDayResult(cfg: S.TraderConfig, rules: F.FttRules, trades: seq<Trade>, s: F.FttState, bank: real): (r: (Option<S.EndOfGame>, F.FttState, real))
    ensures var run := S.RunTrades(cfg, trades, 0, 0.0, s);
      (r.0 == Some(S.Busted) <==> run.busted) &&
      (run.busted ==> r.1 == run.account && r.2 == bank) &&
      (!run.busted ==> r.2 + r.1.currentBalance == bank + s.currentBalance + run.dailyPnl)
    ensures r.0 == Some(S.Busted) ==> r.1.simulationDays == s.simulationDays
    ensures r.0 != Some(S.Busted) ==> r.1.simulationDays == s.simulationDays + 1
    ensures r.0 == Some(S.TimeOut) ==> r.1.simulationDays >= cfg.maxSimulationDays
    ensures r.0.None? ==> r.1.simulationDays < cfg.maxSimulationDays
  {
    var run := S.RunTrades(cfg, trades, 0, 0.0, s);
    if run.busted then (Some(S.Busted), run.account, bank)
    else S.Settle(cfg, rules, L.WithTradingDay(rules, F.TrailedLoss(rules, run.account), run.dailyPnl), bank)
  }

  /** Days run in order until the first one that ends the game: the end state
      and how many days it took, or nothing if the days ran out first. */
  function RunDays(cfg: S.TraderConfig, rules: F.FttRules, days: seq<seq<Trade>>, s: F.FttState, bank: real): (r: Option<(S.EndOfGame, nat)>)
    ensures r.Some? ==> 1 <= r.value.1 <= |days|
    decreases |days|
  {
    if days == [] then None
    else
      var d := TradeDayResult(cfg, rules, days[0], s, bank);
      if d.0.Some? then Some((d.0.value, 1))
      else
        match RunDays(cfg, rules, days[1..], d.1, d.2)
        case None => None
        case Some((e, n)) => Some((e, n + 1))
  }

  /** The days a trial can still last: the days left before the limit, and
      at least one. */
  function DaysLeft(cfg: S.TraderConfig, s: F.FttState): nat {
    if s.simulationDays < cfg.maxSimulationDays then cfg.maxSimulationDays - s.simulationDays else 1
  }

  /** Repeated `trade_day` calls end the game within max(max_simulation_days
      - simulation_days, 1) days, whatever the trades. */
  lemma {:induction false} TrialTerminates(cfg: S.TraderConfig, rules: F.FttRules, days: seq<seq<Trade>>, s: F.FttState, bank: real)
    requires |days| >= DaysLeft(cfg, s)
    ensures RunDays(cfg, rules, days, s, bank).Some?
    ensures RunDays(cfg, rules, days, s, bank).value.1 <= DaysLeft(cfg, s)
    decreases |days|
  {
    var d := TradeDayResult(cfg, rules, days[0], s, bank);
    if d.0.None? {
      assert DaysLeft(cfg, d.1) == DaysLeft(cfg, s) - 1;
      TrialTerminates(cfg, rules, days[1..], d.1, d.2);
    }
  }

  class Trader {
    var bankAccount: S.BankAccount
    const fttAccount: L.FttAccount
    const maxTradesPerDay: Option<nat>
    const dailyProfitTarget: Option<real>
    const dailyStopLoss: Option<real>
    const maxSimulationDays: nat
    const maxPayouts: nat

    function Config(): S.TraderConfig {
      S.TraderConfig(maxTradesPerDay, dailyProfitTarget, dailyStopLoss, maxSimulationDays, maxPayouts)
    }

    ghost predicate Valid()
      reads this, fttAccount
    {
      fttAccount.Valid()
    }

    /** `Trader::new`: a fresh account of the tier, and a bank balance of
      minus the tier's price. */
    constructor (accountType: F.FttAccountType, maxTradesPerDay: Option<nat>, dailyProfitTarget: Option<real>,
                 dailyStopLoss: Option<real>, maxSimulationDays: nat, maxPayouts: nat)
      ensures Valid() && fresh(fttAccount)
      ensures fttAccount.Rules() == F.TierRules(accountType) && fttAccount.State() == F.InitialState(accountType)
      ensures bankAccount.balance == -F.TierCost(accountType)
      ensures Config() == S.TraderConfig(maxTradesPerDay, dailyProfitTarget, dailyStopLoss, maxSimulationDays, maxPayouts)
    {
      fttAccount := new L.FttAccount(accountType);
      bankAccount := S.BankAccount(-F.TierCost(accountType));
      this.maxTradesPerDay := maxTradesPerDay;
      this.dailyProfitTarget := dailyProfitTarget;
      this.dailyStopLoss := dailyStopLoss;
      this.maxSimulationDays := maxSimulationDays;
      this.maxPayouts := maxPayouts;
    }

    /** The trade comes back rewritten, as the source rewrites it in place. */
    method AdjTradeForDailyStopOrTarget(trade: Trade, dailyPnlPretrade: real) returns (adjusted: Trade, status: S.DailyStopTpStatus)
      ensures (adjusted, status) == S.AdjustedTrade(Config(), trade, dailyPnlPretrade)
    {
      adjusted := trade;
      if dailyStopLoss.Some? {
        var dailySl := dailyStopLoss.value;
        if adjusted.returnValue + dailyPnlPretrade <= dailySl {
          adjusted := adjusted.(returnValue := dailySl - dailyPnlPretrade);
          return adjusted, S.StopHit;
        }
        if adjusted.maxOppositeExcursion + dailyPnlPretrade <= dailySl {
          adjusted := adjusted.(returnValue := dailySl - dailyPnlPretrade);
          return adjusted, S.StopHit;
        }
      }
      if dailyProfitTarget.Some? {
        var dailyPt := dailyProfitTarget.value;
        if adjusted.returnValue + dailyPnlPretrade >= dailyPt {
          adjusted := adjusted.(returnValue := dailyPt - dailyPnlPretrade);
          return adjusted, S.TpHit;
        }
        if adjusted.maxOppositeExcursion + dailyPnlPretrade >= dailyPt {
          adjusted := adjusted.(maxOppositeExcursion := adjusted.returnValue);
          adjusted := adjusted.(returnValue := dailyPt - dailyPnlPretrade);
          return adjusted, S.TpHit;
        }
      }
      return adjusted, S.Neither;
    }

    method TradeDay(tradesToday: seq<Trade>) returns (result: S.TradingDayResult)
      requires Valid()
      modifies this, fttAccount
      ensures Valid()
      ensures var r := TradeDayResult(Config(), fttAccount.Rules(), tradesToday, old(fttAccount.State()), old(bankAccount.balance));
        result.endOfGame == r.0 && fttAccount.State() == r.1 && bankAccount.balance == r.2
    {
      var dailyPnl := 0.0;
      var numTradesToday: nat := 0;
      ghost var run := S.RunTrades(Config(), tradesToday, 0, 0.0, fttAccount.State());
      var i := 0;
      while i < |tradesToday|
        invariant 0 <= i <= |tradesToday| && numTradesToday == i
        invariant fttAccount.Valid() && bankAccount == old(bankAccount)
        invariant run == S.RunTrades(Config(), tradesToday, i, dailyPnl, fttAccount.State())
      {
        if maxTradesPerDay.Some? && numTradesToday >= maxTradesPerDay.value {
          break;
        }
        var trade, dailyStopTpStatus := AdjTradeForDailyStopOrTarget(tradesToday[i], dailyPnl);
        var status := fttAccount.TradeOnAccount(trade);
        if status.Blown? {
          return S.TradingDayResult(Some(S.Busted));
        }
        dailyPnl := dailyPnl + status.amount;
        if dailyStopTpStatus == S.TpHit || dailyStopTpStatus == S.StopHit {
          break;
        }
        numTradesToday := numTradesToday + 1;
        i := i + 1;
      }
      assert !run.busted && run.dailyPnl == dailyPnl && run.account == fttAccount.State();
      result := EndOfDay(dailyPnl);
    }

    /** The rest of `trade_day` once the trades are done and the account
        survived them: trail the loss line, count the day, withdraw what is
        allowed and report the end of the game, if any. */
    method EndOfDay(dailyPnl: real) returns (result: S.TradingDayResult)
      requires Valid()
      modifies this, fttAccount
      ensures Valid()
      ensures var rules := fttAccount.Rules();
        var r := S.Settle(Config(), rules, L.WithTradingDay(rules, F.TrailedLoss(rules, old(fttAccount.State())), dailyPnl), old(bankAccount.balance));
        result.endOfGame == r.0 && fttAccount.State() == r.1 && bankAccount.balance == r.2
    {
      fttAccount.UpdateLossBalance();
      fttAccount.TryAddTradingDay(dailyPnl);
      var allowed := fttAccount.AllowedWithdrawalAmount();
      if allowed.Some? {
        var amount := allowed.value;
        var numPayouts := fttAccount.MakeWithdrawal(amount);
        bankAccount := bankAccount.(balance := bankAccount.balance + amount);
        if numPayouts >= maxPayouts {
          return S.TradingDayResult(Some(S.MaxPayouts));
        }
      }
      if fttAccount.simulationDays >= maxSimulationDays {
        return S.TradingDayResult(Some(S.TimeOut));
      }
      return S.TradingDayResult(None);
    }
  }
}
