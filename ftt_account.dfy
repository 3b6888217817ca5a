/** The FTT drawdown/payout account of the simulator
    (src/simulator/prop_account/ftt_account.rs).

    The rules are stated once, as pure functions over the account's mutable
    fields (`FttState`) and its tier constants (`FttRules`); the class
    `FttAccount` carries the struct's fields and its methods are proved to
    update them exactly as those functions say. */
module FttAccounts {
  import opened Wrappers
  import opened Strings
  import opened SimTradeData
  import opened Status

  /** `FTT_CONSISTENCY_FRACTION` */
  const FttConsistencyFraction: real := 0.2

  /** A day counts towards the withdrawal requirement when its P&L is above
      `minWin` or below `minLoss`. */
  datatype RealTradingDay = RealTradingDay(minWin: real, minLoss: real)

  /** `was_rtd`: the day's P&L lies outside the band [minLoss, minWin]. */
  function WasRtd(rtd: RealTradingDay, dailyReturn: real): (r: bool)
    ensures r <==> !(rtd.minLoss <= dailyReturn <= rtd.minWin)
  {
    (dailyReturn > rtd.minWin) || (dailyReturn < rtd.minLoss)
  }

  datatype PayoutCap = PayoutCap(first8Payouts: real, payouts9To12: real)

  datatype FttAccountType = Rally | Daytona | GT | LeMans

  /** The constants a tier fixes when the account is initialized. */
  datatype FttRules = FttRules(
    drawdown: real,
    payoutCap: PayoutCap,
    realTradingDay: RealTradingDay,
    minBalanceToWithdrawFirstPayout: real,
    minBalanceToWithdrawSubsequentPayouts: real,
    minBalanceAfterWithdrawal: real)

  /** The fields the account's methods update. */
  datatype FttState = FttState(
    currentBalance: real,
    hwmBalance: real,
    lossBalance: real,
    payoutCount: nat,
    maxWinningDayProfit: real,
    tradingDays: nat,
    simulationDays: nat)

  /** The tier table of `initialize_account`. Every tier leaves at least 250
      between each withdrawal threshold and the balance that must remain,
      its caps are at least 250, and the later cap is the larger one. */
  function TierRules(t: FttAccountType): (r: FttRules)
    ensures r.drawdown > 0.0
    ensures r.realTradingDay.minLoss < 0.0 < r.realTradingDay.minWin
    ensures r.minBalanceAfterWithdrawal + 250.0 <= r.minBalanceToWithdrawSubsequentPayouts
    ensures r.minBalanceToWithdrawSubsequentPayouts <= r.minBalanceToWithdrawFirstPayout
    ensures 250.0 <= r.payoutCap.first8Payouts <= r.payoutCap.payouts9To12
  {
    match t
    case Rally =>
      FttRules(1250.0, PayoutCap(1500.0, 3000.0), RealTradingDay(62.5, -62.5), 1500.0, 1500.0, 1250.0)
    case Daytona =>
      FttRules(2500.0, PayoutCap(2000.0, 4000.0), RealTradingDay(125.0, -125.0), 2750.0, 2750.0, 2500.0)
    case GT =>
      FttRules(7500.0, PayoutCap(3000.0, 6000.0), RealTradingDay(375.0, -187.5), 7500.0, 4750.0, 4500.0)
    case LeMans =>
      FttRules(15000.0, PayoutCap(4000.0, 8000.0), RealTradingDay(600.0, -300.0), 15000.0, 11250.0, 11000.0)
  }

  /** The mutable fields of a freshly initialized account. */
  function InitialState(t: FttAccountType): FttState {
    FttState(0.0, 0.0, -TierRules(t).drawdown, 0, 0.0, 0, 0)
  }

  /** `FttAccountType::get_cost`: the purchase price of the tier. */
  function TierCost(t: FttAccountType): (cost: real)
    ensures cost > 0.0
    ensures t == Rally ==> cost == 179.0
    ensures t == Daytona ==> cost == 449.0
    ensures t == GT ==> cost == 599.0
    ensures t == LeMans ==> cost == 799.0
  {
    match t
    case Rally => 179.0
    case Daytona => 449.0
    case GT => 599.0
    case LeMans => 799.0
  }

  /** The lower-case name `from_str` accepts for each tier. */
  function Name(t: FttAccountType): string {
    match t
    case Rally => "rally"
    case Daytona => "daytona"
    case GT => "gt"
    case LeMans => "lemans"
  }

  const UnknownFttAccountType: string := "Unknown FTT account type"

  /** `FttAccountType::from_str`: a tier name in any letter case. */
  function FromStr(s: string): (r: Result<FttAccountType, string>)
    ensures r.Success? ==> ToLower(s) == Name(r.value)
    ensures r.Failure? ==> r.error == UnknownFttAccountType && forall t :: ToLower(s) != Name(t)
  {
    var lower := ToLower(s);
    if lower == "rally" then Success(Rally)
    else if lower == "daytona" then Success(Daytona)
    else if lower == "gt" then Success(GT)
    else if lower == "lemans" then Success(LeMans)
    else Failure(UnknownFttAccountType)
  }

  lemma FromStrName(t: FttAccountType)
    ensures FromStr(Name(t)) == Success(t)
  {
    ToLowerOfLower(Name(t));
  }

  /** The trailing loss line sits `drawdown` below the high-water mark and
      never rises above the starting balance 0. */
  ghost predicate LossLine(rules: FttRules, s: FttState) {
    s.lossBalance == Min(s.hwmBalance - rules.drawdown, 0.0)
  }

  /** `trade_on_account`. A winner is judged on its excursion (strictly below
      the loss line blows the account, and the balance then moves by the
      excursion); a loser or scratch is judged on its return. In every case
      the balance moves by exactly the amount reported, and nothing else
      changes. */
  function TradeResult(s: FttState, trade: Trade): (r: (AccountStatus, FttState))
    ensures !r.0.PassedEval?
    ensures trade.returnValue > 0.0 ==>
      (r.0.Blown? <==> s.currentBalance + trade.maxOppositeExcursion < s.lossBalance)
    ensures trade.returnValue <= 0.0 ==>
      (r.0.Blown? <==> s.currentBalance + trade.returnValue < s.lossBalance)
    ensures r.0.amount == (if trade.returnValue > 0.0 && r.0.Blown? then trade.maxOppositeExcursion else trade.returnValue)
    ensures r.1 == s.(currentBalance := s.currentBalance + r.0.amount)
  {
    if trade.returnValue > 0.0 then
      if s.currentBalance + trade.maxOppositeExcursion < s.lossBalance then
        (Blown(trade.maxOppositeExcursion), s.(currentBalance := s.currentBalance + trade.maxOppositeExcursion))
      else
        (Active(trade.returnValue), s.(currentBalance := s.currentBalance + trade.returnValue))
    else
      if s.currentBalance + trade.returnValue < s.lossBalance then
        (Blown(trade.returnValue), s.(currentBalance := s.currentBalance + trade.returnValue))
      else
        (Active(trade.returnValue), s.(currentBalance := s.currentBalance + trade.returnValue))
  }

  /** `update_loss_balance` (end of day). It keeps the loss line at
      min(hwm - drawdown, 0), never lowers the high-water mark or the loss
      line, and does nothing at all once the high-water mark has reached the
      drawdown. Only those two fields can change. */
  function TrailedLoss(rules: FttRules, s: FttState): (r: FttState)
    ensures LossLine(rules, s) ==> LossLine(rules, r)
    ensures r.hwmBalance >= s.hwmBalance
    ensures LossLine(rules, s) ==> r.lossBalance >= s.lossBalance
    ensures s.hwmBalance >= rules.drawdown ==> r == s
    ensures s.hwmBalance < rules.drawdown && s.currentBalance > s.hwmBalance ==>
      r.hwmBalance == s.currentBalance && r.lossBalance == Min(s.currentBalance - rules.drawdown, 0.0)
    ensures s.currentBalance <= s.hwmBalance ==> r == s
    ensures r == s.(hwmBalance := r.hwmBalance, lossBalance := r.lossBalance)
  {
    if s.hwmBalance < rules.drawdown && s.currentBalance > s.hwmBalance then
      var loss := s.currentBalance - rules.drawdown;
      s.(lossBalance := if loss > 0.0 then 0.0 else loss, hwmBalance := s.currentBalance)
    else
      s
  }

  /** `passes_consistency_rule`: the best day since the last payout is at most
      a fifth of the balance. */
  function IsConsistent(s: FttState): (r: bool)
    ensures r <==> s.maxWinningDayProfit <= 0.2 * s.currentBalance
  {
    !(s.maxWinningDayProfit > FttConsistencyFraction * s.currentBalance)
  }

  /** The balance needed before the next payout: the first payout has its own
      threshold. */
  function MinBalanceToWithdraw(rules: FttRules, payoutCount: nat): real {
    if payoutCount == 0 then rules.minBalanceToWithdrawFirstPayout
    else rules.minBalanceToWithdrawSubsequentPayouts
  }

  /** The cap on the next payout: payouts 1 to 8 have the lower cap. */
  function CapFor(rules: FttRules, payoutCount: nat): real {
    if payoutCount + 1 <= 8 then rules.payoutCap.first8Payouts else rules.payoutCap.payouts9To12
  }

  /** `allowed_withdrawal_amount`. Nothing before 10 real trading days, below
      the applicable minimum balance, or when the consistency rule fails;
      otherwise the smaller of the cap and the excess over the balance that
      must remain, so the balance left is never below that minimum. */
  function WithdrawalAmount(rules: FttRules, s: FttState): (r: Option<real>)
    ensures r.None? <==>
      s.tradingDays < 10 || s.currentBalance < MinBalanceToWithdraw(rules, s.payoutCount) || !IsConsistent(s)
    ensures r.Some? ==> r.value == Min(CapFor(rules, s.payoutCount), s.currentBalance - rules.minBalanceAfterWithdrawal)
    ensures r.Some? ==> s.currentBalance - r.value >= rules.minBalanceAfterWithdrawal
  {
    if s.tradingDays >= 10 then
      if s.payoutCount == 0 then
        if s.currentBalance >= rules.minBalanceToWithdrawFirstPayout && IsConsistent(s) then
          if s.currentBalance - rules.minBalanceAfterWithdrawal > rules.payoutCap.first8Payouts then
            Some(rules.payoutCap.first8Payouts)
          else
            Some(s.currentBalance - rules.minBalanceAfterWithdrawal)
        else None
      else
        if s.currentBalance >= rules.minBalanceToWithdrawSubsequentPayouts && IsConsistent(s) then
          if s.payoutCount + 1 > 8 then
            if s.currentBalance - rules.minBalanceAfterWithdrawal > rules.payoutCap.payouts9To12 then
              Some(rules.payoutCap.payouts9To12)
            else
              Some(s.currentBalance - rules.minBalanceAfterWithdrawal)
          else
            if s.currentBalance - rules.minBalanceAfterWithdrawal > rules.payoutCap.first8Payouts then
              Some(rules.payoutCap.first8Payouts)
            else
              Some(s.currentBalance - rules.minBalanceAfterWithdrawal)
        else None
    else None
  }

  /** Under every tier's constants an allowed payout is at least 250. */
  lemma WithdrawalAtLeast250(t: FttAccountType, s: FttState)
    requires WithdrawalAmount(TierRules(t), s).Some?
    ensures WithdrawalAmount(TierRules(t), s).value >= 250.0
  {
  }

  /** `make_withdrawal`: the amount leaves the balance, the consistency
      tracker and the trading-day counter restart, and the payout count goes
      up by one and is returned. The trail fields are untouched. */
  function Withdrawn(s: FttState, amount: real): (r: (FttState, nat))
    ensures r.0 == s.(currentBalance := s.currentBalance - amount, maxWinningDayProfit := 0.0,
                      tradingDays := 0, payoutCount := s.payoutCount + 1)
    ensures r.1 == r.0.payoutCount
  {
    var s' := s.(currentBalance := s.currentBalance - amount, maxWinningDayProfit := 0.0,
                 tradingDays := 0, payoutCount := s.payoutCount + 1);
    (s', s'.payoutCount)
  }

  /** `try_add_trading_day` of the simulator copy: counts a real trading day
      and raises the best-day tracker; it does not touch `simulationDays`. */
  function WithTradingDay(rules: FttRules, s: FttState, dailyPnl: real): (r: FttState)
    ensures r.tradingDays == s.tradingDays + (if dailyPnl > rules.realTradingDay.minWin
                                                || dailyPnl < rules.realTradingDay.minLoss then 1 else 0)
    ensures r.maxWinningDayProfit == Max(s.maxWinningDayProfit, dailyPnl)
    ensures r == s.(tradingDays := r.tradingDays, maxWinningDayProfit := r.maxWinningDayProfit)
  {
    var counted := if WasRtd(rules.realTradingDay, dailyPnl) then s.tradingDays + 1 else s.tradingDays;
    s.(tradingDays := counted,
       maxWinningDayProfit := if dailyPnl > s.maxWinningDayProfit then dailyPnl else s.maxWinningDayProfit)
  }

  class FttAccount {
    var currentBalance: real
    var hwmBalance: real
    const drawdown: real
    var lossBalance: real
    const payoutCap: PayoutCap
    const realTradingDay: RealTradingDay
    var payoutCount: nat
    const minBalanceToWithdrawFirstPayout: real
    const minBalanceToWithdrawSubsequentPayouts: real
    const minBalanceAfterWithdrawal: real
    var maxWinningDayProfit: real
    var tradingDays: nat
    var simulationDays: nat
    const accountType: FttAccountType

    function Rules(): FttRules {
      FttRules(drawdown, payoutCap, realTradingDay, minBalanceToWithdrawFirstPayout,
               minBalanceToWithdrawSubsequentPayouts, minBalanceAfterWithdrawal)
    }

    function State(): FttState
      reads this
    {
      FttState(currentBalance, hwmBalance, lossBalance, payoutCount, maxWinningDayProfit,
               tradingDays, simulationDays)
    }

    ghost predicate Valid()
      reads this
    {
      Rules() == TierRules(accountType) && LossLine(Rules(), State())
    }

    /** `FttAccount::new`, through `initialize_account`. */
    constructor (accountType: FttAccountType)
      ensures Valid()
      ensures this.accountType == accountType && State() == InitialState(accountType)
    {
      var rules := TierRules(accountType);
      this.accountType := accountType;
      drawdown := rules.drawdown;
      payoutCap := rules.payoutCap;
      realTradingDay := rules.realTradingDay;
      minBalanceToWithdrawFirstPayout := rules.minBalanceToWithdrawFirstPayout;
      minBalanceToWithdrawSubsequentPayouts := rules.minBalanceToWithdrawSubsequentPayouts;
      minBalanceAfterWithdrawal := rules.minBalanceAfterWithdrawal;
      currentBalance := 0.0;
      hwmBalance := 0.0;
      lossBalance := -rules.drawdown;
      payoutCount := 0;
      maxWinningDayProfit := 0.0;
      tradingDays := 0;
      simulationDays := 0;
    }

    method TradeOnAccount(trade: Trade) returns (status: AccountStatus)
      requires Valid()
      modifies this
      ensures Valid()
      ensures (status, State()) == TradeResult(old(State()), trade)
    {
      if trade.returnValue > 0.0 {
        if currentBalance + trade.maxOppositeExcursion < lossBalance {
          currentBalance := currentBalance + trade.maxOppositeExcursion;
          return Blown(trade.maxOppositeExcursion);
        } else {
          currentBalance := currentBalance + trade.returnValue;
          return Active(trade.returnValue);
        }
      } else {
        if currentBalance + trade.returnValue < lossBalance {
          currentBalance := currentBalance + trade.returnValue;
          return Blown(trade.returnValue);
        } else {
          currentBalance := currentBalance + trade.returnValue;
          return Active(trade.returnValue);
        }
      }
    }

    method UpdateLossBalance()
      requires Valid()
      modifies this
      ensures Valid()
      ensures State() == TrailedLoss(Rules(), old(State()))
    {
      if hwmBalance < drawdown {
        if currentBalance > hwmBalance {
          lossBalance := currentBalance - drawdown;
          if lossBalance > 0.0 {
            lossBalance := 0.0;
          }
          hwmBalance := currentBalance;
        }
      }
    }

    /** `passes_consistency_rule`: the best day is at most 20% of the balance. */
    function PassesConsistencyRule(): (r: bool)
      reads this
      ensures r <==> maxWinningDayProfit <= 0.2 * currentBalance
    {
      IsConsistent(State())
    }

    /** `allowed_withdrawal_amount` on the account's own fields. */
    function AllowedWithdrawalAmount(): (r: Option<real>)
      reads this
      ensures r.None? <==>
        tradingDays < 10 || currentBalance < MinBalanceToWithdraw(Rules(), payoutCount) || !PassesConsistencyRule()
      ensures r.Some? ==> r.value <= CapFor(Rules(), payoutCount)
      ensures r.Some? ==> currentBalance - r.value >= minBalanceAfterWithdrawal
      ensures r.Some? ==> r.value == Min(CapFor(Rules(), payoutCount), currentBalance - minBalanceAfterWithdrawal)
      ensures r == WithdrawalAmount(Rules(), State())
    {
      WithdrawalAmount(Rules(), State())
    }

    method MakeWithdrawal(amount: real) returns (payouts: nat)
      requires Valid()
      modifies this
      ensures Valid()
      ensures (State(), payouts) == Withdrawn(old(State()), amount)
    {
      currentBalance := currentBalance - amount;
      maxWinningDayProfit := 0.0;
      tradingDays := 0;
      payoutCount := payoutCount + 1;
      return payoutCount;
    }

    method TryAddTradingDay(dailyPnl: real)
      requires Valid()
      modifies this
      ensures Valid()
      ensures State() == WithTradingDay(Rules(), old(State()), dailyPnl)
    {
      if WasRtd(realTradingDay, dailyPnl) {
        tradingDays := tradingDays + 1;
      }
      if dailyPnl > maxWinningDayProfit {
        maxWinningDayProfit := dailyPnl;
      }
    }

    // The `PropAccount` implementation.

    method ProcessTrade(trade: Trade) returns (status: AccountStatus)
      requires Valid()
      modifies this
      ensures Valid()
      ensures (status, State()) == TradeResult(old(State()), trade)
    {
      status := TradeOnAccount(trade);
    }

    method UpdateEndOfDay(dailyPnl: real)
      requires Valid()
      modifies this
      ensures Valid()
      ensures State() == WithTradingDay(Rules(), TrailedLoss(Rules(), old(State())), dailyPnl)
    {
      UpdateLossBalance();
      TryAddTradingDay(dailyPnl);
    }

    method IncrementSimulationDay()
      requires Valid()
      modifies this
      ensures Valid()
      ensures State() == old(State()).(simulationDays := old(simulationDays) + 1)
    {
      simulationDays := simulationDays + 1;
    }
  }
}
