/** The simulator's trader (src/simulator/trader.rs): one FTT account, a bank
    account that starts at minus the account's price, and the daily trading
    loop with its optional trade-count, profit-target and stop-loss limits.

    The day is specified by pure functions (`AdjustedTrade`, `RunTrades`,
    `Settle`, `TradeDayResult`); the class `Trader` is proved to run it. */
module SimTrader {
  import opened Wrappers
  import opened Status
  import opened SimTradeData
  import opened FttAccounts

  datatype EndOfGame = Busted | TimeOut | MaxPayouts

  datatype DailyStopTpStatus = StopHit | TpHit | Neither

  datatype BankAccount = BankAccount(balance: real)

  datatype TradingDayResult = TradingDayResult(endOfGame: Option<EndOfGame>)

  /** The trader's fixed settings. */
  datatype TraderConfig = TraderConfig(
    maxTradesPerDay: Option<nat>,
    dailyProfitTarget: Option<real>,
    dailyStopLoss: Option<real>,
    maxSimulationDays: nat,
    maxPayouts: nat)

  /** The trade would take the day's P&L to or below the daily stop, on its
      return or on its excursion. */
  predicate StopReached(cfg: TraderConfig, trade: Trade, pnl: real) {
    cfg.dailyStopLoss.Some? &&
    (trade.returnValue + pnl <= cfg.dailyStopLoss.value ||
     trade.maxOppositeExcursion + pnl <= cfg.dailyStopLoss.value)
  }

  /** The trade would take the day's P&L to or above the daily target, on its
      return or on its excursion. */
  predicate TargetReached(cfg: TraderConfig, trade: Trade, pnl: real) {
    cfg.dailyProfitTarget.Some? &&
    (trade.returnValue + pnl >= cfg.dailyProfitTarget.value ||
     trade.maxOppositeExcursion + pnl >= cfg.dailyProfitTarget.value)
  }

  /** `adj_trade_for_daily_stop_or_target`. The stop is checked first; a
      clipped trade's return lands the day's P&L exactly on the limit. The
      stop leaves the excursion alone; a target reached only on the excursion
      conservatively swaps the old return in as the excursion. A trade that
      reaches neither limit is unchanged. */
  function AdjustedTrade(cfg: TraderConfig, trade: Trade, pnl: real): (r: (Trade, DailyStopTpStatus))
    ensures r.1 == StopHit <==> StopReached(cfg, trade, pnl)
    ensures r.1 == TpHit <==> !StopReached(cfg, trade, pnl) && TargetReached(cfg, trade, pnl)
    ensures r.1 == StopHit ==>
      pnl + r.0.returnValue == cfg.dailyStopLoss.value && r.0.maxOppositeExcursion == trade.maxOppositeExcursion
    ensures r.1 == TpHit ==>
      pnl + r.0.returnValue == cfg.dailyProfitTarget.value &&
      r.0.maxOppositeExcursion == (if trade.returnValue + pnl >= cfg.dailyProfitTarget.value
                                   then trade.maxOppositeExcursion else trade.returnValue)
    ensures r.1 == Neither ==> r.0 == trade
  {
    if cfg.dailyStopLoss.Some? && trade.returnValue + pnl <= cfg.dailyStopLoss.value then
      (trade.(returnValue := cfg.dailyStopLoss.value - pnl), StopHit)
    else if cfg.dailyStopLoss.Some? && trade.maxOppositeExcursion + pnl <= cfg.dailyStopLoss.value then
      (trade.(returnValue := cfg.dailyStopLoss.value - pnl), StopHit)
    else if cfg.dailyProfitTarget.Some? && trade.returnValue + pnl >= cfg.dailyProfitTarget.value then
      (trade.(returnValue := cfg.dailyProfitTarget.value - pnl), TpHit)
    else if cfg.dailyProfitTarget.Some? && trade.maxOppositeExcursion + pnl >= cfg.dailyProfitTarget.value then
      (Trade(cfg.dailyProfitTarget.value - pnl, trade.returnValue), TpHit)
    else
      (trade, Neither)
  }

  /** How the trades of one day went: whether the account blew, the day's
      P&L, the account afterwards, how many trades reached the account, and
      which daily limit (if any) ended the day. */
  datatype DayRun = DayRun(busted: bool, dailyPnl: real, account: FttState, tradesApplied: nat, limitHit: DailyStopTpStatus)

  /** The `trade_day` loop from trade `i` on, with P&L `pnl` so far. The
      count limit is checked before each trade, then the trade is clipped
      and applied; a blow-out or a hit limit ends the day. Only the account
      balance changes, and on a day that is not busted it moves by exactly
      the P&L; a hit limit leaves the P&L exactly on that limit; no more than
      the count limit of trades reach the account. */
  function RunTrades(cfg: TraderConfig, trades: seq<Trade>, i: nat, pnl: real, s: FttState): (r: DayRun)
    requires i <= |trades|
    ensures r.account == s.(currentBalance := r.account.currentBalance)
    ensures !r.busted ==> r.account.currentBalance == s.currentBalance + (r.dailyPnl - pnl)
    ensures i <= r.tradesApplied <= |trades|
    ensures cfg.maxTradesPerDay.Some? && i <= cfg.maxTradesPerDay.value ==> r.tradesApplied <= cfg.maxTradesPerDay.value
    ensures !r.busted && r.limitHit == StopHit ==> cfg.dailyStopLoss == Some(r.dailyPnl)
    ensures !r.busted && r.limitHit == TpHit ==> cfg.dailyProfitTarget == Some(r.dailyPnl)
    decreases |trades| - i
  {
    if i == |trades| then DayRun(false, pnl, s, i, Neither)
    else if cfg.maxTradesPerDay.Some? && i >= cfg.maxTradesPerDay.value then DayRun(false, pnl, s, i, Neither)
    else
      var (trade, limit) := AdjustedTrade(cfg, trades[i], pnl);
      var (status, s') := TradeResult(s, trade);
      if status.Blown? then DayRun(true, pnl, s', i + 1, limit)
      else if limit != Neither then DayRun(false, pnl + status.amount, s', i + 1, limit)
      else RunTrades(cfg, trades, i + 1, pnl + status.amount, s')
  }

  /** With a stop at or below the starting P&L and a target at or above it
      (and the stop below the target), a day that is not busted ends with
      its P&L between the two. */
  lemma {:induction false} RunTradesWithinLimits(cfg: TraderConfig, trades: seq<Trade>, i: nat, pnl: real, s: FttState)
    requires i <= |trades|
    requires cfg.dailyStopLoss.Some? ==> cfg.dailyStopLoss.value <= pnl
    requires cfg.dailyProfitTarget.Some? ==> pnl <= cfg.dailyProfitTarget.value
    requires cfg.dailyStopLoss.Some? && cfg.dailyProfitTarget.Some? ==>
      cfg.dailyStopLoss.value <= cfg.dailyProfitTarget.value
    ensures var r := RunTrades(cfg, trades, i, pnl, s);
      !r.busted ==>
        (cfg.dailyStopLoss.Some? ==> cfg.dailyStopLoss.value <= r.dailyPnl) &&
        (cfg.dailyProfitTarget.Some? ==> r.dailyPnl <= cfg.dailyProfitTarget.value)
    decreases |trades| - i
  {
    if i < |trades| && !(cfg.maxTradesPerDay.Some? && i >= cfg.maxTradesPerDay.value) {
      var (trade, limit) := AdjustedTrade(cfg, trades[i], pnl);
      var (status, s') := TradeResult(s, trade);
      if !status.Blown? && limit == Neither {
        assert pnl + status.amount == pnl + trades[i].returnValue;
        RunTradesWithinLimits(cfg, trades, i + 1, pnl + status.amount, s');
      }
    }
  }

  /** The end of a day that was not busted: a withdrawal if one is allowed
      (the bank is credited exactly the amount), MaxPayouts once the payout
      count reaches the limit, which takes precedence over the TimeOut
      check on the account's simulation days. */
  function Settle(cfg: TraderConfig, rules: FttRules, s: FttState, bank: real): (r: (Option<EndOfGame>, FttState, real))
    ensures r.0 != Some(Busted)
    ensures WithdrawalAmount(rules, s).None? ==> r.1 == s && r.2 == bank
    ensures WithdrawalAmount(rules, s).Some? ==>
      var amount := WithdrawalAmount(rules, s).value;
      r.1 == Withdrawn(s, amount).0 && r.2 == bank + amount
    ensures r.0 == Some(MaxPayouts) <==>
      WithdrawalAmount(rules, s).Some? && s.payoutCount + 1 >= cfg.maxPayouts
    ensures r.0 == Some(TimeOut) <==> r.0 != Some(MaxPayouts) && s.simulationDays >= cfg.maxSimulationDays
    ensures r.1.simulationDays == s.simulationDays
  {
    match WithdrawalAmount(rules, s)
    case Some(amount) =>
      var (s', numPayouts) := Withdrawn(s, amount);
      if numPayouts >= cfg.maxPayouts then (Some(MaxPayouts), s', bank + amount)
      else if s'.simulationDays >= cfg.maxSimulationDays then (Some(TimeOut), s', bank + amount)
      else (None, s', bank + amount)
    case None =>
      if s.simulationDays >= cfg.maxSimulationDays then (Some(TimeOut), s, bank)
      else (None, s, bank)
  }

  /** `trade_day` as written over the simulator's FTT account. A busted day
      skips the end-of-day update and the withdrawal; otherwise the money
      that leaves the account is exactly what reaches the bank. The account's
      simulation days never change, so the day can only time out when the
      limit is already reached. */
  function TradeDayResult(cfg: TraderConfig, rules: FttRules, trades: seq<Trade>, s: FttState, bank: real): (r: (Option<EndOfGame>, FttState, real))
    ensures var run := RunTrades(cfg, trades, 0, 0.0, s);
      (r.0 == Some(Busted) <==> run.busted) &&
      (run.busted ==> r.1 == run.account && r.2 == bank) &&
      (!run.busted ==> r.2 + r.1.currentBalance == bank + s.currentBalance + run.dailyPnl)
    ensures r.1.simulationDays == s.simulationDays
    ensures r.0 == Some(TimeOut) ==> s.simulationDays >= cfg.maxSimulationDays
  {
    var run := RunTrades(cfg, trades, 0, 0.0, s);
    if run.busted then (Some(Busted), run.account, bank)
    else Settle(cfg, rules, WithTradingDay(rules, TrailedLoss(rules, run.account), run.dailyPnl), bank)
  }

  /** A trader on a fresh account with a positive day limit never times out:
      every later day leaves simulation day 0 unchanged. */
  lemma NeverTimesOut(cfg: TraderConfig, rules: FttRules, trades: seq<Trade>, s: FttState, bank: real)
    requires cfg.maxSimulationDays > 0 && s.simulationDays == 0
    ensures TradeDayResult(cfg, rules, trades, s, bank).0 != Some(TimeOut)
    ensures TradeDayResult(cfg, rules, trades, s, bank).1.simulationDays == 0
  {
  }

  class Trader {
    var bankAccount: BankAccount
    const fttAccount: FttAccount
    const maxTradesPerDay: Option<nat>
    const dailyProfitTarget: Option<real>
    const dailyStopLoss: Option<real>
    const maxSimulationDays: nat
    const maxPayouts: nat

    function Config(): TraderConfig {
      TraderConfig(maxTradesPerDay, dailyProfitTarget, dailyStopLoss, maxSimulationDays, maxPayouts)
    }

    ghost predicate Valid()
      reads this, fttAccount
    {
      fttAccount.Valid()
    }

    /** `Trader::new`: a fresh account of the tier, and a bank balance of
      minus the tier's price. */
    constructor (accountType: FttAccountType, maxTradesPerDay: Option<nat>, dailyProfitTarget: Option<real>,
                 dailyStopLoss: Option<real>, maxSimulationDays: nat, maxPayouts: nat)
      ensures Valid() && fresh(fttAccount)
      ensures fttAccount.accountType == accountType && fttAccount.State() == InitialState(accountType)
      ensures bankAccount.balance == -TierCost(accountType)
      ensures Config() == TraderConfig(maxTradesPerDay, dailyProfitTarget, dailyStopLoss, maxSimulationDays, maxPayouts)
    {
      fttAccount := new FttAccount(accountType);
      bankAccount := BankAccount(-TierCost(accountType));
      this.maxTradesPerDay := maxTradesPerDay;
      this.dailyProfitTarget := dailyProfitTarget;
      this.dailyStopLoss := dailyStopLoss;
      this.maxSimulationDays := maxSimulationDays;
      this.maxPayouts := maxPayouts;
    }

    /** The trade comes back rewritten, as the source rewrites it in place. */
    method AdjTradeForDailyStopOrTarget(trade: Trade, dailyPnlPretrade: real) returns (adjusted: Trade, status: DailyStopTpStatus)
      ensures (adjusted, status) == AdjustedTrade(Config(), trade, dailyPnlPretrade)
    {
      adjusted := trade;
      if dailyStopLoss.Some? {
        var dailySl := dailyStopLoss.value;
        if adjusted.returnValue + dailyPnlPretrade <= dailySl {
          adjusted := adjusted.(returnValue := dailySl - dailyPnlPretrade);
          return adjusted, StopHit;
        }
        if adjusted.maxOppositeExcursion + dailyPnlPretrade <= dailySl {
          adjusted := adjusted.(returnValue := dailySl - dailyPnlPretrade);
          return adjusted, StopHit;
        }
      }
      if dailyProfitTarget.Some? {
        var dailyPt := dailyProfitTarget.value;
        if adjusted.returnValue + dailyPnlPretrade >= dailyPt {
          adjusted := adjusted.(returnValue := dailyPt - dailyPnlPretrade);
          return adjusted, TpHit;
        }
        if adjusted.maxOppositeExcursion + dailyPnlPretrade >= dailyPt {
          adjusted := adjusted.(maxOppositeExcursion := adjusted.returnValue);
          adjusted := adjusted.(returnValue := dailyPt - dailyPnlPretrade);
          return adjusted, TpHit;
        }
      }
      return adjusted, Neither;
    }

    method TradeDay(tradesToday: seq<Trade>) returns (result: TradingDayResult)
      requires Valid()
      modifies this, fttAccount
      ensures Valid()
      ensures var r := TradeDayResult(Config(), fttAccount.Rules(), tradesToday, old(fttAccount.State()), old(bankAccount.balance));
        result.endOfGame == r.0 && fttAccount.State() == r.1 && bankAccount.balance == r.2
    {
      var dailyPnl := 0.0;
      var numTradesToday: nat := 0;
      ghost var run := RunTrades(Config(), tradesToday, 0, 0.0, fttAccount.State());
      var i := 0;
      while i < |tradesToday|
        invariant 0 <= i <= |tradesToday| && numTradesToday == i
        invariant fttAccount.Valid() && bankAccount == old(bankAccount)
        invariant run == RunTrades(Config(), tradesToday, i, dailyPnl, fttAccount.State())
      {
        if maxTradesPerDay.Some? && numTradesToday >= maxTradesPerDay.value {
          break;
        }
        var trade, dailyStopTpStatus := AdjTradeForDailyStopOrTarget(tradesToday[i], dailyPnl);
        var status := fttAccount.TradeOnAccount(trade);
        if status.Blown? {
          return TradingDayResult(Some(Busted));
        }
        dailyPnl := dailyPnl + status.amount;
        if dailyStopTpStatus == TpHit || dailyStopTpStatus == StopHit {
          break;
        }
        numTradesToday := numTradesToday + 1;
        i := i + 1;
      }
      assert !run.busted && run.dailyPnl == dailyPnl && run.account == fttAccount.State();
      result := EndOfDay(dailyPnl);
    }

    /** The rest of `trade_day` once the trades are done and the account
        survived them: trail the loss line, count the day, withdraw what is
        allowed and report the end of the game, if any. */
    method EndOfDay(dailyPnl: real) returns (result: TradingDayResult)
      requires Valid()
      modifies this, fttAccount
      ensures Valid()
      ensures var rules := fttAccount.Rules();
        var r := Settle(Config(), rules, WithTradingDay(rules, TrailedLoss(rules, old(fttAccount.State())), dailyPnl), old(bankAccount.balance));
        result.endOfGame == r.0 && fttAccount.State() == r.1 && bankAccount.balance == r.2
    {
      fttAccount.UpdateLossBalance();
      fttAccount.TryAddTradingDay(dailyPnl);
      var allowed := fttAccount.AllowedWithdrawalAmount();
      if allowed.Some? {
        var amount := allowed.value;
        var numPayouts := fttAccount.MakeWithdrawal(amount);
        bankAccount := bankAccount.(balance := bankAccount.balance + amount);
        if numPayouts >= maxPayouts {
          return TradingDayResult(Some(MaxPayouts));
        }
      }
      if fttAccount.simulationDays >= maxSimulationDays {
        return TradingDayResult(Some(TimeOut));
      }
      return TradingDayResult(None);
    }
  }
}
