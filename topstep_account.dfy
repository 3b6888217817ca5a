/** The Topstep combine/funded account of the simulator
    (src/simulator/prop_account/topstep_account.rs).

    Until the evaluation is passed the account trades on the combine rules,
    which end the evaluation as soon as the profit target is touched; after
    that it trades as a funded account. The rules are pure functions over
    `TopstepState`; the class `TopstepAccount` is proved to follow them. */
module TopstepAccounts {
  import opened Wrappers
  import opened Strings
  import opened SimTradeData
  import opened Status

  /** `WINNING_DAY_TOPSTEP` */
  const WinningDayTopstep: real := 200.0
  /** `TOPSTED_CONSISTENCY_FRACTION` */
  const TopstepConsistencyFraction: real := 0.5
  /** `XFA_COST`: the price of the funded account. */
  const XfaCost: real := 149.0

  datatype TopstepAccountType = Fifty | OneHundred | OneFifty

  datatype TopstepRules = TopstepRules(drawdown: real, profitTarget: real)

  datatype TopstepState = TopstepState(
    currentBalance: real,
    hwmBalance: real,
    lossBalance: real,
    winningDaysSinceLastPayout: nat,
    totalWinningDays: nat,
    maxWinningDayProfit: real,
    passedEval: bool,
    simulationDays: nat)

  /** The tier table of `initialize_account`: the profit target is above the
      drawdown for every tier. */
  function TierRules(t: TopstepAccountType): (r: TopstepRules)
    ensures 0.0 < r.drawdown < r.profitTarget
    ensures t == Fifty ==> r == TopstepRules(2000.0, 3000.0)
    ensures t == OneHundred ==> r == TopstepRules(3000.0, 6000.0)
    ensures t == OneFifty ==> r == TopstepRules(4500.0, 9000.0)
  {
    match t
    case Fifty => TopstepRules(2000.0, 3000.0)
    case OneHundred => TopstepRules(3000.0, 6000.0)
    case OneFifty => TopstepRules(4500.0, 9000.0)
  }

  function InitialState(t: TopstepAccountType): TopstepState {
    TopstepState(0.0, 0.0, -TierRules(t).drawdown, 0, 0, 0.0, false, 0)
  }

  /** `TopstepAccountType::get_cost`: the price of the combine. */
  function TierCost(t: TopstepAccountType): (cost: real)
    ensures 0.0 < cost <= XfaCost
    ensures t == Fifty ==> cost == 49.0
    ensures t == OneHundred ==> cost == 99.0
    ensures t == OneFifty ==> cost == 149.0
  {
    match t
    case Fifty => 49.0
    case OneHundred => 99.0
    case OneFifty => 149.0
  }

  function Name(t: TopstepAccountType): string {
    match t
    case Fifty => "fifty"
    case OneHundred => "onehundred"
    case OneFifty => "onefifty"
  }

  const UnknownTopstepAccountType: string := "Unknown Topstep account type"

  /** `TopstepAccountType::from_str`: a tier name in any letter case. */
  function FromStr(s: string): (r: Result<TopstepAccountType, string>)
    ensures r.Success? ==> ToLower(s) == Name(r.value)
    ensures r.Failure? ==> r.error == UnknownTopstepAccountType && forall t :: ToLower(s) != Name(t)
  {
    var lower := ToLower(s);
    if lower == "fifty" then Success(Fifty)
    else if lower == "onehundred" then Success(OneHundred)
    else if lower == "onefifty" then Success(OneFifty)
    else Failure(UnknownTopstepAccountType)
  }

  lemma FromStrName(t: TopstepAccountType)
    ensures FromStr(Name(t)) == Success(t)
  {
    ToLowerOfLower(Name(t));
  }

  ghost predicate LossLine(rules: TopstepRules, s: TopstepState) {
    s.lossBalance == Min(s.hwmBalance - rules.drawdown, 0.0)
  }

  /** `trade_on_combine`. Touching the loss line (inclusive) blows the
      account; a winner that brings the balance to the target, or a loser
      whose excursion reaches the target, passes the evaluation with the
      balance set to the target exactly; otherwise the balance moves by the
      return. Only the balance and the pass flag can change, and the flag is
      raised exactly when `PassedEval` is reported. */
  function CombineResult(rules: TopstepRules, s: TopstepState, trade: Trade): (r: (AccountStatus, TopstepState))
    ensures r.1 == s.(currentBalance := r.1.currentBalance, passedEval := r.1.passedEval)
    ensures r.0.PassedEval? ==> r.1.currentBalance == rules.profitTarget && r.1.passedEval
    ensures !r.0.PassedEval? ==> r.1.passedEval == s.passedEval
    ensures trade.returnValue > 0.0 ==>
      (r.0.Blown? <==> s.currentBalance + trade.maxOppositeExcursion <= s.lossBalance)
    ensures trade.returnValue <= 0.0 ==>
      (r.0.Blown? <==> s.currentBalance + trade.returnValue <= s.lossBalance)
    ensures trade.returnValue > 0.0 && !r.0.Blown? ==>
      (r.0.PassedEval? <==> s.currentBalance + trade.returnValue >= rules.profitTarget)
    ensures trade.returnValue <= 0.0 && !r.0.Blown? ==>
      (r.0.PassedEval? <==> s.currentBalance + trade.maxOppositeExcursion >= rules.profitTarget)
    ensures r.0.Blown? ==> r.0.amount == (if trade.returnValue > 0.0 then trade.maxOppositeExcursion else trade.returnValue)
    ensures r.0.Active? ==> r.0.amount == trade.returnValue
    ensures !r.0.PassedEval? ==> r.1.currentBalance == s.currentBalance + r.0.amount
  {
    if trade.returnValue > 0.0 then
      if s.currentBalance + trade.maxOppositeExcursion <= s.lossBalance then
        (Blown(trade.maxOppositeExcursion), s.(currentBalance := s.currentBalance + trade.maxOppositeExcursion))
      else
        var balance := s.currentBalance + trade.returnValue;
        if balance >= rules.profitTarget then
          (PassedEval, s.(currentBalance := rules.profitTarget, passedEval := true))
        else
          (Active(trade.returnValue), s.(currentBalance := balance))
    else
      if s.currentBalance + trade.returnValue <= s.lossBalance then
        (Blown(trade.returnValue), s.(currentBalance := s.currentBalance + trade.returnValue))
      else if s.currentBalance + trade.maxOppositeExcursion >= rules.profitTarget then
        (PassedEval, s.(currentBalance := rules.profitTarget, passedEval := true))
      else
        (Active(trade.returnValue), s.(currentBalance := s.currentBalance + trade.returnValue))
  }

  /** `trade_on_account` (funded phase). Touching the loss line (inclusive)
      blows the account; a winner is judged on its excursion. The balance
      moves by exactly the amount reported and nothing else changes. */
  function FundedResult(s: TopstepState, trade: Trade): (r: (AccountStatus, TopstepState))
    ensures !r.0.PassedEval?
    ensures trade.returnValue > 0.0 ==>
      (r.0.Blown? <==> s.currentBalance + trade.maxOppositeExcursion <= s.lossBalance)
    ensures trade.returnValue <= 0.0 ==>
      (r.0.Blown? <==> s.currentBalance + trade.returnValue <= s.lossBalance)
    ensures r.0.amount == (if trade.returnValue > 0.0 && r.0.Blown? then trade.maxOppositeExcursion else trade.returnValue)
    ensures r.1 == s.(currentBalance := s.currentBalance + r.0.amount)
  {
    if trade.returnValue > 0.0 then
      if s.currentBalance + trade.maxOppositeExcursion <= s.lossBalance then
        (Blown(trade.maxOppositeExcursion), s.(currentBalance := s.currentBalance + trade.maxOppositeExcursion))
      else
        (Active(trade.returnValue), s.(currentBalance := s.currentBalance + trade.returnValue))
    else
      if s.currentBalance + trade.returnValue <= s.lossBalance then
        (Blown(trade.returnValue), s.(currentBalance := s.currentBalance + trade.returnValue))
      else
        (Active(trade.returnValue), s.(currentBalance := s.currentBalance + trade.returnValue))
  }

  /** `process_trade`: combine rules until the evaluation is passed, funded
      rules afterwards. A passed evaluation stays passed and is reported at
      most once. */
  function ProcessResult(rules: TopstepRules, s: TopstepState, trade: Trade): (r: (AccountStatus, TopstepState))
    ensures s.passedEval ==> r.1.passedEval && !r.0.PassedEval?
    ensures !s.passedEval ==> (r.1.passedEval <==> r.0.PassedEval?)
    ensures r.1.hwmBalance == s.hwmBalance && r.1.lossBalance == s.lossBalance
  {
    if !s.passedEval then CombineResult(rules, s, trade) else FundedResult(s, trade)
  }

  /** `update_loss_balance` (end of day). The loss line trails the
      high-water mark by the drawdown, capped at 0, while the high-water mark
      is below the profit target; only those two fields change. */
  function TrailedLoss(rules: TopstepRules, s: TopstepState): (r: TopstepState)
    ensures LossLine(rules, s) ==> LossLine(rules, r)
    ensures r.hwmBalance >= s.hwmBalance
    ensures LossLine(rules, s) ==> r.lossBalance >= s.lossBalance
    ensures s.hwmBalance >= rules.profitTarget ==> r == s
    ensures s.hwmBalance < rules.profitTarget && s.currentBalance > s.hwmBalance ==>
      r.hwmBalance == s.currentBalance && r.lossBalance == Min(s.currentBalance - rules.drawdown, 0.0)
    ensures s.currentBalance <= s.hwmBalance ==> r == s
    ensures r == s.(hwmBalance := r.hwmBalance, lossBalance := r.lossBalance)
  {
    if s.hwmBalance < rules.profitTarget && s.currentBalance > s.hwmBalance then
      var loss := s.currentBalance - rules.drawdown;
      s.(lossBalance := if loss > 0.0 then 0.0 else loss, hwmBalance := s.currentBalance)
    else
      s
  }

  /** `passes_consistency_rule`: the best day since the last payout is at
      most half the balance. */
  function IsConsistent(s: TopstepState): (r: bool)
    ensures r <==> s.maxWinningDayProfit <= 0.5 * s.currentBalance
  {
    !(s.maxWinningDayProfit > TopstepConsistencyFraction * s.currentBalance)
  }

  /** The inherent `allowed_withdrawal_amount`: the whole balance after 30
      winning days in total, otherwise half of it after 5 winning days since
      the last payout, otherwise nothing. */
  function InherentWithdrawalAmount(s: TopstepState): (r: Option<real>)
    ensures r.Some? <==> s.totalWinningDays >= 30 || s.winningDaysSinceLastPayout >= 5
    ensures s.totalWinningDays >= 30 ==> r == Some(s.currentBalance)
    ensures s.totalWinningDays < 30 && r.Some? ==> r.value == s.currentBalance / 2.0
  {
    if s.totalWinningDays >= 30 then Some(s.currentBalance)
    else if s.winningDaysSinceLastPayout >= 5 then Some(s.currentBalance * 0.5)
    else None
  }

  /** The `PropAccount` `allowed_withdrawal_amount`: nothing can be taken
      before the evaluation is passed. */
  function WithdrawalAmount(s: TopstepState): (r: Option<real>)
    ensures r.Some? ==> s.passedEval
    ensures s.passedEval ==> r == InherentWithdrawalAmount(s)
  {
    if s.passedEval then InherentWithdrawalAmount(s) else None
  }

  /** `make_withdrawal`: the amount leaves the balance, the best-day tracker
      and the since-payout counter restart; the result is 1 (the game is
      over) exactly when at most 0.01 is left, and 0 otherwise. */
  function Withdrawn(s: TopstepState, amount: real): (r: (TopstepState, nat))
    ensures r.0 == s.(currentBalance := s.currentBalance - amount, maxWinningDayProfit := 0.0,
                      winningDaysSinceLastPayout := 0)
    ensures r.1 == 1 <==> s.currentBalance - amount <= 0.01
    ensures r.1 == 0 || r.1 == 1
  {
    var s' := s.(currentBalance := s.currentBalance - amount, maxWinningDayProfit := 0.0,
                 winningDaysSinceLastPayout := 0);
    (s', if s'.currentBalance <= 0.01 then 1 else 0)
  }

  /** Taking the whole balance, as the account allows after 30 winning days,
      always ends the game. */
  lemma FullWithdrawalEndsGame(s: TopstepState)
    requires s.totalWinningDays >= 30
    ensures Withdrawn(s, WithdrawalAmount(s.(passedEval := true)).value).1 == 1
  {
  }

  /** `try_add_trading_day`: nothing before the pass; afterwards a day of at
      least 200 is a winning day for both counters, and the best-day tracker
      is raised. */
  function WithTradingDay(s: TopstepState, dailyPnl: real): (r: TopstepState)
    ensures !s.passedEval ==> r == s
    ensures s.passedEval ==>
      var w := if dailyPnl >= WinningDayTopstep then 1 else 0;
      r == s.(totalWinningDays := s.totalWinningDays + w,
              winningDaysSinceLastPayout := s.winningDaysSinceLastPayout + w,
              maxWinningDayProfit := Max(s.maxWinningDayProfit, dailyPnl))
  {
    if s.passedEval then
      var s1 := if dailyPnl >= WinningDayTopstep then
                  s.(totalWinningDays := s.totalWinningDays + 1,
                     winningDaysSinceLastPayout := s.winningDaysSinceLastPayout + 1)
                else s;
      if dailyPnl > s1.maxWinningDayProfit then s1.(maxWinningDayProfit := dailyPnl) else s1
    else
      s
  }

  /** During the combine the balance stays strictly below the profit target:
      reaching it ends the combine. */
  ghost predicate CombineBound(rules: TopstepRules, s: TopstepState) {
    LossLine(rules, s) && (!s.passedEval ==> s.currentBalance < rules.profitTarget)
  }

  lemma InitialCombineBound(t: TopstepAccountType)
    ensures CombineBound(TierRules(t), InitialState(t))
  {
  }

  /** Every trade keeps the combine bound (the target is positive for every
      tier, so a blown combine trade ends at or below the loss line, which is
      at most 0). */
  lemma ProcessKeepsCombineBound(rules: TopstepRules, s: TopstepState, trade: Trade)
    requires 0.0 < rules.profitTarget
    requires CombineBound(rules, s)
    ensures CombineBound(rules, ProcessResult(rules, s, trade).1)
  {
  }

  /** The end of day keeps the combine bound. */
  lemma EndOfDayKeepsCombineBound(rules: TopstepRules, s: TopstepState, dailyPnl: real)
    requires CombineBound(rules, s)
    ensures CombineBound(rules, WithTradingDay(TrailedLoss(rules, s), dailyPnl))
  {
  }

  /** A withdrawal the account allows keeps the combine bound. */
  lemma WithdrawalKeepsCombineBound(rules: TopstepRules, s: TopstepState)
    requires CombineBound(rules, s) && WithdrawalAmount(s).Some?
    ensures CombineBound(rules, Withdrawn(s, WithdrawalAmount(s).value).0)
  {
  }

  class TopstepAccount {
    var currentBalance: real
    var hwmBalance: real
    const profitTarget: real
    const drawdown: real
    var lossBalance: real
    var winningDaysSinceLastPayout: nat
    var totalWinningDays: nat
    var maxWinningDayProfit: real
    var passedEval: bool
    var simulationDays: nat
    const accountType: TopstepAccountType

    function Rules(): TopstepRules {
      TopstepRules(drawdown, profitTarget)
    }

    function State(): TopstepState
      reads this
    {
      TopstepState(currentBalance, hwmBalance, lossBalance, winningDaysSinceLastPayout,
                   totalWinningDays, maxWinningDayProfit, passedEval, simulationDays)
    }

    ghost predicate Valid()
      reads this
    {
      Rules() == TierRules(accountType) && LossLine(Rules(), State())
    }

    /** `TopstepAccount::new`, through `initialize_account`. */
    constructor (accountType: TopstepAccountType)
      ensures Valid()
      ensures this.accountType == accountType && State() == InitialState(accountType)
    {
      var rules := TierRules(accountType);
      this.accountType := accountType;
      drawdown := rules.drawdown;
      profitTarget := rules.profitTarget;
      currentBalance := 0.0;
      hwmBalance := 0.0;
      lossBalance := -rules.drawdown;
      simulationDays := 0;
      winningDaysSinceLastPayout := 0;
      totalWinningDays := 0;
      passedEval := false;
      maxWinningDayProfit := 0.0;
    }

    method TradeOnCombine(trade: Trade) returns (status: AccountStatus)
      requires Valid()
      modifies this
      ensures Valid()
      ensures (status, State()) == CombineResult(Rules(), old(State()), trade)
    {
      if trade.returnValue > 0.0 {
        if currentBalance + trade.maxOppositeExcursion <= lossBalance {
          currentBalance := currentBalance + trade.maxOppositeExcursion;
          return Blown(trade.maxOppositeExcursion);
        } else {
          currentBalance := currentBalance + trade.returnValue;
          if currentBalance >= profitTarget {
            currentBalance := profitTarget;
            passedEval := true;
            return PassedEval;
          }
          return Active(trade.returnValue);
        }
      } else {
        if currentBalance + trade.returnValue <= lossBalance {
          currentBalance := currentBalance + trade.returnValue;
          return Blown(trade.returnValue);
        } else if currentBalance + trade.maxOppositeExcursion >= profitTarget {
          currentBalance := profitTarget;
          passedEval := true;
          return PassedEval;
        } else {
          currentBalance := currentBalance + trade.returnValue;
          return Active(trade.returnValue);
        }
      }
    }

    method TradeOnAccount(trade: Trade) returns (status: AccountStatus)
      requires Valid()
      modifies this
      ensures Valid()
      ensures (status, State()) == FundedResult(old(State()), trade)
    {
      if trade.returnValue > 0.0 {
        if currentBalance + trade.maxOppositeExcursion <= lossBalance {
          currentBalance := currentBalance + trade.maxOppositeExcursion;
          return Blown(trade.maxOppositeExcursion);
        } else {
          currentBalance := currentBalance + trade.returnValue;
          return Active(trade.returnValue);
        }
      } else {
        if currentBalance + trade.returnValue <= lossBalance {
          currentBalance := currentBalance + trade.returnValue;
          return Blown(trade.returnValue);
        } else {
          currentBalance := currentBalance + trade.returnValue;
          return Active(trade.returnValue);
        }
      }
    }

    method UpdateLossBalance()
      requires Valid()
      modifies this
      ensures Valid()
      ensures State() == TrailedLoss(Rules(), old(State()))
    {
      if hwmBalance < profitTarget {
        if currentBalance > hwmBalance {
          lossBalance := currentBalance - drawdown;
          if lossBalance > 0.0 {
            lossBalance := 0.0;
          }
          hwmBalance := currentBalance;
        }
      }
    }

    /** `passes_consistency_rule`: the best day is at most half the balance. */
    function PassesConsistencyRule(): (r: bool)
      reads this
      ensures r <==> maxWinningDayProfit <= 0.5 * currentBalance
    {
      IsConsistent(State())
    }

    /** The inherent `allowed_withdrawal_amount`: the whole balance after 30
        winning days, half of it after 5 since the last payout. */
    function AllowedWithdrawalAmount(): (r: Option<real>)
      reads this
      ensures r.Some? <==> totalWinningDays >= 30 || winningDaysSinceLastPayout >= 5
      ensures totalWinningDays >= 30 ==> r == Some(currentBalance)
      ensures totalWinningDays < 30 && r.Some? ==> r.value == currentBalance / 2.0
    {
      InherentWithdrawalAmount(State())
    }

    method MakeWithdrawal(amount: real) returns (gameOver: nat)
      requires Valid()
      modifies this
      ensures Valid()
      ensures (State(), gameOver) == Withdrawn(old(State()), amount)
    {
      currentBalance := currentBalance - amount;
      maxWinningDayProfit := 0.0;
      winningDaysSinceLastPayout := 0;
      if currentBalance <= 0.01 {
        return 1;
      } else {
        return 0;
      }
    }

    method TryAddTradingDay(dailyPnl: real)
      requires Valid()
      modifies this
      ensures Valid()
      ensures State() == WithTradingDay(old(State()), dailyPnl)
    {
      if passedEval {
        if dailyPnl >= WinningDayTopstep {
          totalWinningDays := totalWinningDays + 1;
          winningDaysSinceLastPayout := winningDaysSinceLastPayout + 1;
        }
        if dailyPnl > maxWinningDayProfit {
          maxWinningDayProfit := dailyPnl;
        }
      }
    }

    // The `PropAccount` implementation.

    method ProcessTrade(trade: Trade) returns (status: AccountStatus)
      requires Valid()
      modifies this
      ensures Valid()
      ensures (status, State()) == ProcessResult(Rules(), old(State()), trade)
    {
      if !passedEval {
        status := TradeOnCombine(trade);
      } else {
        status := TradeOnAccount(trade);
      }
    }

    method UpdateEndOfDay(dailyPnl: real)
      requires Valid()
      modifies this
      ensures Valid()
      ensures State() == WithTradingDay(TrailedLoss(Rules(), old(State())), dailyPnl)
    {
      UpdateLossBalance();
      TryAddTradingDay(dailyPnl);
    }

    method IncrementSimulationDay()
      requires Valid()
      modifies this
      ensures Valid()
      ensures State() == old(State()).(simulationDays := old(simulationDays) + 1)
    {
      simulationDays := simulationDays + 1;
    }
  }
}
