/** The incentives payment form: validation with early returns, the RAI
    allowance check, the operation chosen on submit, and the handlers that
    keep the two deposit amounts in step through the pool price. */
module IncentivesPayment {
  import opened Common
  import opened Stores

  /** The incentives store's `type`; kinds other than deposit and withdraw
      are not validated. */
  datatype IncentiveKind = Deposit | Withdraw | OtherKind(name: string)

  /** One constructor per message the form can show. */
  datatype IncentiveError =
    | EnterDepositAmounts
    | EthExceedsBalance
    | RaiExceedsBalance
    | EnterUniPoolAmount
    | UniPoolExceedsStaked

  /** What `useIncentives` reports about the pool: token addresses and prices
      as decimal strings, and the staked liquidity-token balance. */
  datatype PoolInfo = PoolInfo(
    token0: string,
    token0Price: string,
    token1Price: string,
    coinAddress: string,
    stakedBalance: string)

  /** The wallet balances the form reads, '' when absent. */
  datatype Balances = Balances(eth: string, rai: string)

  /** The form's own state. */
  datatype FormState = FormState(ethAmount: string, raiAmount: string, error: Option<IncentiveError>, uniPool: string)

  /** `validationChecker` as a decision: the message of the first failing check,
      or None when the form may be submitted. The deposit prompt's condition
      has a third disjunct in the form that tests a method reference (always
      truthy) beside a zero ETH amount; it adds nothing to the first disjunct
      and is left out. */
  function IncentiveValidation(h: Helpers, kind: IncentiveKind, ethAmount: string, raiAmount: string,
                               balances: Balances, uniPool: string, stakedBalance: string): (r: Option<IncentiveError>)
    ensures kind.OtherKind? ==> r == None
    ensures kind == Deposit ==>
      var eth := AmountWad(h, ethAmount);
      var rai := AmountWad(h, raiAmount);
      && (r == Some(EnterDepositAmounts) <==> eth == 0 || rai == 0)
      && (r == Some(EthExceedsBalance) <==> eth != 0 && rai != 0 && eth > AmountWad(h, balances.eth))
      && (r == Some(RaiExceedsBalance) <==>
            eth != 0 && rai != 0 && eth <= AmountWad(h, balances.eth) && rai > AmountWad(h, balances.rai))
      && (r == None <==>
            eth != 0 && rai != 0 && eth <= AmountWad(h, balances.eth) && rai <= AmountWad(h, balances.rai))
    ensures kind == Withdraw ==>
      var uni := AmountWad(h, uniPool);
      && (r == Some(EnterUniPoolAmount) <==> uni == 0)
      && (r == Some(UniPoolExceedsStaked) <==> uni != 0 && uni > AmountWad(h, stakedBalance))
      && (r == None <==> uni != 0 && uni <= AmountWad(h, stakedBalance))
  {
    match kind
    case Deposit =>
      var eth := AmountWad(h, ethAmount);
      var rai := AmountWad(h, raiAmount);
      if eth == 0 || rai == 0 then Some(EnterDepositAmounts)
      else if eth > AmountWad(h, balances.eth) then Some(EthExceedsBalance)
      else if rai > AmountWad(h, balances.rai) then Some(RaiExceedsBalance)
      else None
    case Withdraw =>
      var uni := AmountWad(h, uniPool);
      if uni == 0 then Some(EnterUniPoolAmount)
      else if uni > AmountWad(h, stakedBalance) then Some(UniPoolExceedsStaked)
      else None
    case OtherKind(_) => None
  }

  /** `passedCheckForCoinAllowance`: false without an allowance, otherwise
      whether the allowance covers the RAI amount. */
  function CoinAllowancePassed(h: Helpers, coinAllowance: string, raiAmount: string): (r: bool)
    ensures coinAllowance == "" ==> !r
    ensures coinAllowance != "" ==> (r <==> h.toWad(coinAllowance) >= AmountWad(h, raiAmount))
  {
    coinAllowance != "" && h.toWad(coinAllowance) >= AmountWad(h, raiAmount)
  }

  /** The operation `handleSubmit` moves to after a passed validation: the
      approval step (2) for a deposit the allowance does not cover, otherwise
      the confirmation step (3). */
  function SubmitOperation(kind: IncentiveKind, allowancePassed: bool): (op: int)
    ensures op == 2 <==> kind == Deposit && !allowancePassed
    ensures op == 3 <==> !(kind == Deposit && !allowancePassed)
  {
    if kind == Deposit && !allowancePassed then 2 else 3
  }

  /** The price of one side in units of the other: `token0Price` exactly when
      the typed side and the coin's position in the pair agree. */
  function PriceFor(isEth: bool, pool: PoolInfo): (p: string)
    ensures (isEth <==> pool.coinAddress == pool.token0) ==> p == pool.token0Price
    ensures !(isEth <==> pool.coinAddress == pool.token0) ==> p == pool.token1Price
  {
    if isEth then (if pool.coinAddress == pool.token0 then pool.token0Price else pool.token1Price)
    else (if pool.coinAddress == pool.token0 then pool.token1Price else pool.token0Price)
  }

  /** The other side's amount, at WAD precision: `value` (WAD) times the
      price read at RAD precision and cut to RAY, divided by WAD. */
  function Converted(value: nat, priceRad: nat): (r: nat)
    ensures r * Wad <= value * (priceRad / Ray) < r * Wad + Wad
    ensures priceRad < Ray ==> r == 0
  {
    DivFloor(priceRad, Ray);
    DivFloor(value * (priceRad / Ray), Wad);
    value * (priceRad / Ray) / Wad
  }

  class IncentivesPaymentForm {
    var ethAmount: string
    var raiAmount: string
    var error: Option<IncentiveError>
    var uniPool: string

    function Snapshot(): FormState
      reads this
    {
      FormState(ethAmount, raiAmount, error, uniPool)
    }

    /** The form starts with every field empty and no message. */
    constructor ()
      ensures Snapshot() == FormState("", "", None, "")
    {
      ethAmount, raiAmount, error, uniPool := "", "", None, "";
    }

    /** `validationChecker`: shows the first failing check's message and
        reports failure, or leaves the message alone and reports success. */
    method ValidationChecker(h: Helpers, kind: IncentiveKind, balances: Balances, stakedBalance: string)
      returns (passed: bool)
      modifies this
      ensures var r := IncentiveValidation(h, kind, old(ethAmount), old(raiAmount), balances, old(uniPool), stakedBalance);
        && (passed <==> r.None?)
        && Snapshot() == old(Snapshot()).(error := if r.Some? then r else old(error))
    {
      if kind == Deposit {
        var eth := AmountWad(h, ethAmount);
        var rai := AmountWad(h, raiAmount);
        var ethBalance := AmountWad(h, balances.eth);
        var raiBalance := AmountWad(h, balances.rai);
        if eth == 0 || rai == 0 {
          error := Some(EnterDepositAmounts);
          return false;
        }
        if eth > ethBalance {
          error := Some(EthExceedsBalance);
          return false;
        }
        if rai > raiBalance {
          error := Some(RaiExceedsBalance);
          return false;
        }
      }
      if kind == Withdraw {
        var uni := AmountWad(h, uniPool);
        var staked := AmountWad(h, stakedBalance);
        if uni == 0 {
          error := Some(EnterUniPoolAmount);
          return false;
        }
        if uni > staked {
          error := Some(UniPoolExceedsStaked);
          return false;
        }
      }
      return true;
    }

    /** `handleSubmit`: on a failed validation the operation is unchanged;
        otherwise it moves to the approval or the confirmation step. */
    method HandleSubmit(h: Helpers, kind: IncentiveKind, balances: Balances, stakedBalance: string,
                        wallet: ConnectWalletModel, store: IncentivesModel)
      modifies this, store
      ensures var r := IncentiveValidation(h, kind, old(ethAmount), old(raiAmount), balances, old(uniPool), stakedBalance);
        && Snapshot() == old(Snapshot()).(error := if r.Some? then r else old(error))
        && store.Snapshot() ==
             (if r.Some? then old(store.Snapshot())
              else old(store.Snapshot()).(operation :=
                     SubmitOperation(kind, CoinAllowancePassed(h, wallet.coinAllowance, old(raiAmount)))))
    {
      var passed := ValidationChecker(h, kind, balances, stakedBalance);
      if passed {
        if kind == Deposit && !CoinAllowancePassed(h, wallet.coinAllowance, raiAmount) {
          store.SetOperation(2);
        } else {
          store.SetOperation(3);
        }
      }
    }

    /** `handleCancel`: closes the modal and returns to the first operation. */
    method HandleCancel(popups: PopupsModel, store: IncentivesModel)
      modifies popups, store
      ensures popups.Snapshot() == old(popups.Snapshot()).(isIncentivesModalOpen := false)
      ensures store.Snapshot() == old(store.Snapshot()).(operation := 0)
    {
      popups.SetIsIncentivesModalOpen(false);
      store.SetOperation(0);
    }

    /** `handleChange`: clears the message; an empty value clears both amounts
        here and in the store; without the pool's addresses nothing else
        happens; otherwise the typed value is kept on its side and the other
        side gets its converted amount, here and in the store. */
    method HandleChange(h: Helpers, val: string, isEth: bool, pool: PoolInfo, store: IncentivesModel)
      modifies this, store
      ensures error == None && uniPool == old(uniPool)
      ensures val == "" ==>
        && ethAmount == "" && raiAmount == ""
        && store.Snapshot() == old(store.Snapshot()).(incentivesFields := IncentivesFields("", ""))
      ensures val != "" && (pool.coinAddress == "" || pool.token0 == "") ==>
        ethAmount == old(ethAmount) && raiAmount == old(raiAmount) && store.Snapshot() == old(store.Snapshot())
      ensures val != "" && pool.coinAddress != "" && pool.token0 != "" ==>
        var reflect := h.wadToFixed(Converted(h.toWad(val), h.toRad(PriceFor(isEth, pool))));
        && (isEth ==> ethAmount == val && raiAmount == reflect)
        && (!isEth ==> raiAmount == val && ethAmount == reflect)
        && store.Snapshot() == old(store.Snapshot()).(incentivesFields := IncentivesFields(raiAmount, ethAmount))
    {
      error := None;
      if val == "" {
        ethAmount := "";
        raiAmount := "";
        store.SetIncentivesFields(IncentivesFields("", ""));
        return;
      }
      if pool.coinAddress == "" || pool.token0 == "" {
        return;
      }
      var price := PriceFor(isEth, pool);
      var reflectValue := h.wadToFixed(Converted(h.toWad(val), h.toRad(price)));
      var raiVal := if isEth then reflectValue else val;
      var ethVal := if isEth then val else reflectValue;
      store.SetIncentivesFields(IncentivesFields(raiVal, ethVal));
      raiAmount := raiVal;
      ethAmount := ethVal;
    }

    /** `handleUniPoolChange`: the typed amount, here and in the store. */
    method HandleUniPoolChange(val: string, store: IncentivesModel)
      modifies this, store
      ensures Snapshot() == old(Snapshot()).(uniPool := val)
      ensures store.Snapshot() == old(store.Snapshot()).(uniPoolAmount := val)
    {
      uniPool := val;
      store.SetUniPoolAmount(val);
    }

    /** The effect that copies the store's amounts into the form. */
    method SyncFields(store: IncentivesModel)
      modifies this
      ensures Snapshot() == old(Snapshot()).(ethAmount := store.incentivesFields.ethAmount,
                                             raiAmount := store.incentivesFields.raiAmount)
    {
      ethAmount := store.incentivesFields.ethAmount;
      raiAmount := store.incentivesFields.raiAmount;
    }

    /** The effect that copies the store's UniPool amount into the form. */
    method SyncUniPool(store: IncentivesModel)
      modifies this
      ensures Snapshot() == old(Snapshot()).(uniPool := store.uniPoolAmount)
    {
      uniPool := store.uniPoolAmount;
    }
  }
}
