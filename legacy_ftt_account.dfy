/** The older FTT account (src/ftt_account.rs). Its tiers and rules are the
    simulator account's, so it shares their definitions; it differs in two
    places: a blown trade reports no amount, and `try_add_trading_day` also
    counts the simulation day. */
module LegacyFtt {
  import opened Wrappers
  import opened SimTradeData
  import F = FttAccounts

  datatype AccountStatus = Blown | Active(amount: real)

  /** `trade_on_account`: the same judgement and the same balance change as
      the simulator account, with the blown amount dropped. */
  function TradeResult(s: F.FttState, trade: Trade): (r: (AccountStatus, F.FttState))
    ensures r.1 == F.TradeResult(s, trade).1
    ensures r.0.Blown? <==> F.TradeResult(s, trade).0.Blown?
    ensures r.0.Active? ==> r.0.amount == trade.returnValue && r.1.currentBalance == s.currentBalance + trade.returnValue
  {
    if trade.returnValue > 0.0 then
      if s.currentBalance + trade.maxOppositeExcursion < s.lossBalance then
        (Blown, s.(currentBalance := s.currentBalance + trade.maxOppositeExcursion))
      else
        (Active(trade.returnValue), s.(currentBalance := s.currentBalance + trade.returnValue))
    else
      if s.currentBalance + trade.returnValue < s.lossBalance then
        (Blown, s.(currentBalance := s.currentBalance + trade.returnValue))
      else
        (Active(trade.returnValue), s.(currentBalance := s.currentBalance + trade.returnValue))
  }

  /** `try_add_trading_day`: every call is one more simulation day; the
      trading-day counter and the best-day tracker move as in the simulator
      account. */
  function WithTradingDay(rules: F.FttRules, s: F.FttState, dailyPnl: real): (r: F.FttState)
    ensures r.simulationDays == s.simulationDays + 1
    ensures r == F.WithTradingDay(rules, s, dailyPnl).(simulationDays := s.simulationDays + 1)
  {
    var s1 := s.(simulationDays := s.simulationDays + 1);
    var s2 := if F.WasRtd(rules.realTradingDay, dailyPnl) then s1.(tradingDays := s1.tradingDays + 1) else s1;
    if dailyPnl > s2.maxWinningDayProfit then s2.(maxWinningDayProfit := dailyPnl) else s2
  }

  class FttAccount {
    var currentBalance: real
    var hwmBalance: real
    const drawdown: real
    var lossBalance: real
    const payoutCap: F.PayoutCap
    const realTradingDay: F.RealTradingDay
    var payoutCount: nat
    const minBalanceToWithdrawFirstPayout: real
    const minBalanceToWithdrawSubsequentPayouts: real
    const minBalanceAfterWithdrawal: real
    var maxWinningDayProfit: real
    var tradingDays: nat
    var simulationDays: nat

    function Rules(): F.FttRules {
      F.FttRules(drawdown, payoutCap, realTradingDay, minBalanceToWithdrawFirstPayout,
                 minBalanceToWithdrawSubsequentPayouts, minBalanceAfterWithdrawal)
    }

    function State(): F.FttState
      reads this
    {
      F.FttState(currentBalance, hwmBalance, lossBalance, payoutCount, maxWinningDayProfit,
                 tradingDays, simulationDays)
    }

    ghost predicate Valid()
      reads this
    {
      F.LossLine(Rules(), State())
    }

    /** `FttAccount::new`: the tier table is the simulator account's. */
    constructor (accountType: F.FttAccountType)
      ensures Valid()
      ensures Rules() == F.TierRules(accountType) && State() == F.InitialState(accountType)
    {
      var rules := F.TierRules(accountType);
      drawdown := rules.drawdown;
      payoutCap := rules.payoutCap;
      realTradingDay := rules.realTradingDay;
      minBalanceToWithdrawFirstPayout := rules.minBalanceToWithdrawFirstPayout;
      minBalanceToWithdrawSubsequentPayouts := rules.minBalanceToWithdrawSubsequentPayouts;
      minBalanceAfterWithdrawal := rules.minBalanceAfterWithdrawal;
      currentBalance := 0.0;
      hwmBalance := 0.0;
      lossBalance := -rules.drawdown;
      payoutCount := 0;
      maxWinningDayProfit := 0.0;
      tradingDays := 0;
      simulationDays := 0;
    }

    method TradeOnAccount(trade: Trade) returns (status: AccountStatus)
      requires Valid()
      modifies this
      ensures Valid()
      ensures (status, State()) == TradeResult(old(State()), trade)
    {
      if trade.returnValue > 0.0 {
        if currentBalance + trade.maxOppositeExcursion < lossBalance {
          currentBalance := currentBalance + trade.maxOppositeExcursion;
          return Blown;
        } else {
          currentBalance := currentBalance + trade.returnValue;
          return Active(trade.returnValue);
        }
      } else {
        if currentBalance + trade.returnValue < lossBalance {
          currentBalance := currentBalance + trade.returnValue;
          return Blown;
        } else {
          currentBalance := currentBalance + trade.returnValue;
          return Active(trade.returnValue);
        }
      }
    }

    method UpdateLossBalance()
      requires Valid()
      modifies this
      ensures Valid()
      ensures State() == F.TrailedLoss(Rules(), old(State()))
    {
      if hwmBalance < drawdown {
        if currentBalance > hwmBalance {
          lossBalance := currentBalance - drawdown;
          if lossBalance > 0.0 {
            lossBalance := 0.0;
          }
          hwmBalance := currentBalance;
        }
      }
    }

    /** `passes_consistency_rule`: the best day is at most 20% of the balance. */
    function PassesConsistencyRule(): (r: bool)
      reads this
      ensures r <==> maxWinningDayProfit <= 0.2 * currentBalance
    {
      F.IsConsistent(State())
    }

    /** `allowed_withdrawal_amount`, the simulator account's rule. */
    function AllowedWithdrawalAmount(): (r: Option<real>)
      reads this
      ensures r.None? <==>
        tradingDays < 10 || currentBalance < F.MinBalanceToWithdraw(Rules(), payoutCount) || !PassesConsistencyRule()
      ensures r.Some? ==> r.value <= F.CapFor(Rules(), payoutCount)
      ensures r.Some? ==> currentBalance - r.value >= minBalanceAfterWithdrawal
      ensures r.Some? ==> r.value == Min(F.CapFor(Rules(), payoutCount), currentBalance - minBalanceAfterWithdrawal)
      ensures r == F.WithdrawalAmount(Rules(), State())
    {
      F.WithdrawalAmount(Rules(), State())
    }

    method MakeWithdrawal(amount: real) returns (payouts: nat)
      requires Valid()
      modifies this
      ensures Valid()
      ensures (State(), payouts) == F.Withdrawn(old(State()), amount)
    {
      currentBalance := currentBalance - amount;
      maxWinningDayProfit := 0.0;
      tradingDays := 0;
      payoutCount := payoutCount + 1;
      return payoutCount;
    }

    method TryAddTradingDay(dailyPnl: real)
      requires Valid()
      modifies this
      ensures Valid()
      ensures State() == WithTradingDay(Rules(), old(State()), dailyPnl)
    {
      simulationDays := simulationDays + 1;
      if F.WasRtd(realTradingDay, dailyPnl) {
        tradingDays := tradingDays + 1;
      }
      if dailyPnl > maxWinningDayProfit {
        maxWinningDayProfit := dailyPnl;
      }
    }
  }
}
