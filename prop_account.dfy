/** The `PropAccount` interface and `create_account`
    (src/simulator/prop_account/mod.rs).

    A boxed trait object becomes a datatype over the two account classes;
    each interface operation dispatches on it. */
module PropAccounts {
  import opened Wrappers
  import opened Status
  import opened SimTradeData
  import opened AccountTypes
  import F = FttAccounts
  import T = TopstepAccounts

  /** `Box<dyn PropAccount>`. */
  datatype PropAccount = FttBox(ftt: F.FttAccount) | TopstepBox(topstep: T.TopstepAccount)

  /** The object behind the box. */
  function Obj(a: PropAccount): object {
    match a
    case FttBox(f) => f
    case TopstepBox(t) => t
  }

  ghost predicate Valid(a: PropAccount)
    reads Obj(a)
  {
    match a
    case FttBox(f) => f.Valid()
    case TopstepBox(t) => t.Valid()
  }

  function GetCurrentBalance(a: PropAccount): real
    reads Obj(a)
  {
    match a
    case FttBox(f) => f.currentBalance
    case TopstepBox(t) => t.currentBalance
  }

  function GetSimulationDays(a: PropAccount): nat
    reads Obj(a)
  {
    match a
    case FttBox(f) => f.simulationDays
    case TopstepBox(t) => t.simulationDays
  }

  /** `get_cost`: the price of the account's tier. */
  function GetCost(a: PropAccount): (cost: real)
    ensures cost > 0.0
    ensures a.FttBox? ==> cost == F.TierCost(a.ftt.accountType)
    ensures a.TopstepBox? ==> cost == T.TierCost(a.topstep.accountType)
  {
    match a
    case FttBox(f) => F.TierCost(f.accountType)
    case TopstepBox(t) => T.TierCost(t.accountType)
  }

  /** `get_funded_acct_cost`: FTT charges nothing for the funded stage,
      Topstep charges the XFA price. */
  function GetFundedAcctCost(a: PropAccount): (cost: real)
    ensures a.FttBox? ==> cost == 0.0
    ensures a.TopstepBox? ==> cost == 149.0
  {
    match a
    case FttBox(_) => 0.0
    case TopstepBox(_) => T.XfaCost
  }

  /** `allowed_withdrawal_amount` through the interface: a Topstep account
      offers nothing before its evaluation is passed. Reads only. */
  function AllowedWithdrawalAmount(a: PropAccount): (r: Option<real>)
    reads Obj(a)
    ensures a.FttBox? ==> r == F.WithdrawalAmount(a.ftt.Rules(), a.ftt.State())
    ensures a.TopstepBox? && !a.topstep.passedEval ==> r.None?
    ensures a.TopstepBox? && a.topstep.passedEval ==> r == T.InherentWithdrawalAmount(a.topstep.State())
  {
    match a
    case FttBox(f) => f.AllowedWithdrawalAmount()
    case TopstepBox(t) => T.WithdrawalAmount(t.State())
  }

  /** `create_account`: the FTT tier gives a fresh FTT account and the
      Topstep tier a fresh Topstep account, both starting at balance 0 and
      simulation day 0. */
  method CreateAccount(accountType: AccountType) returns (a: PropAccount)
    ensures fresh(Obj(a)) && Valid(a)
    ensures accountType.Ftt? <==> a.FttBox?
    ensures a.FttBox? ==>
      a.ftt.accountType == accountType.ftt && a.ftt.State() == F.InitialState(accountType.ftt)
    ensures a.TopstepBox? ==>
      a.topstep.accountType == accountType.topstep && a.topstep.State() == T.InitialState(accountType.topstep)
    ensures GetCurrentBalance(a) == 0.0 && GetSimulationDays(a) == 0
    ensures GetFundedAcctCost(a) == if accountType.Ftt? then 0.0 else 149.0
  {
    match accountType
    case Ftt(t) =>
      var f := new F.FttAccount(t);
      a := FttBox(f);
    case TopStep(t) =>
      var s := new T.TopstepAccount(t);
      a := TopstepBox(s);
  }

  /** `process_trade`: an FTT account never reports a passed evaluation. */
  method ProcessTrade(a: PropAccount, trade: Trade) returns (status: AccountStatus)
    requires Valid(a)
    modifies Obj(a)
    ensures Valid(a)
    ensures a.FttBox? ==> (status, a.ftt.State()) == F.TradeResult(old(a.ftt.State()), trade) && !status.PassedEval?
    ensures a.TopstepBox? ==>
      (status, a.topstep.State()) == T.ProcessResult(a.topstep.Rules(), old(a.topstep.State()), trade)
  {
    match a
    case FttBox(f) => status := f.ProcessTrade(trade);
    case TopstepBox(t) => status := t.ProcessTrade(trade);
  }

  method UpdateEndOfDay(a: PropAccount, dailyPnl: real)
    requires Valid(a)
    modifies Obj(a)
    ensures Valid(a)
    ensures a.FttBox? ==>
      a.ftt.State() == F.WithTradingDay(a.ftt.Rules(), F.TrailedLoss(a.ftt.Rules(), old(a.ftt.State())), dailyPnl)
    ensures a.TopstepBox? ==>
      a.topstep.State() == T.WithTradingDay(T.TrailedLoss(a.topstep.Rules(), old(a.topstep.State())), dailyPnl)
  {
    match a
    case FttBox(f) => f.UpdateEndOfDay(dailyPnl);
    case TopstepBox(t) => t.UpdateEndOfDay(dailyPnl);
  }

  method MakeWithdrawal(a: PropAccount, amount: real) returns (r: nat)
    requires Valid(a)
    modifies Obj(a)
    ensures Valid(a)
    ensures a.FttBox? ==> (a.ftt.State(), r) == F.Withdrawn(old(a.ftt.State()), amount)
    ensures a.TopstepBox? ==> (a.topstep.State(), r) == T.Withdrawn(old(a.topstep.State()), amount)
  {
    match a
    case FttBox(f) => r := f.MakeWithdrawal(amount);
    case TopstepBox(t) => r := t.MakeWithdrawal(amount);
  }

  method IncrementSimulationDay(a: PropAccount)
    requires Valid(a)
    modifies Obj(a)
    ensures Valid(a)
    ensures GetSimulationDays(a) == old(GetSimulationDays(a)) + 1
    ensures GetCurrentBalance(a) == old(GetCurrentBalance(a))
    ensures a.FttBox? ==> a.ftt.State() == old(a.ftt.State()).(simulationDays := old(a.ftt.simulationDays) + 1)
    ensures a.TopstepBox? ==> a.topstep.State() == old(a.topstep.State()).(simulationDays := old(a.topstep.simulationDays) + 1)
  {
    match a
    case FttBox(f) => f.IncrementSimulationDay();
    case TopstepBox(t) => t.IncrementSimulationDay();
  }
}
