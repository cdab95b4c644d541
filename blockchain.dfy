/** The transaction handlers of the wallet: which proxy action each one asks
    for, from zero tests on the parsed amounts, and the slippage minimums of
    the incentive handlers. Building the proxy, estimating gas and sending
    the transaction are not modelled; a handler's outcome is the request it
    would send, or why it stopped. Amounts are WAD-scaled integers as
    returned by `parseEther`. */
module Blockchain {
  import opened Common
  import opened Stores

  /** The proxy actions the handlers can build. Liquidity minimums are listed
      RAI first, as the handlers pass them. */
  datatype ProxyAction =
    | OpenLockETHAndGenerateDebt(collateral: nat, debt: nat)
    | GenerateDebt(safeId: string, debt: nat)
    | LockETH(collateral: nat, safeId: string)
    | LockETHAndGenerateDebt(collateral: nat, safeId: string, debt: nat)
    | RepayAllDebtAndFreeETH(safeId: string, collateral: nat)
    | RepayAllDebt(safeId: string)
    | RepayDebt(safeId: string, debt: nat)
    | FreeETH(safeId: string, collateral: nat)
    | RepayDebtAndFreeETH(safeId: string, collateral: nat, debt: nat)
    | ExitETH(safeId: string, collateral: nat)
    | ProvideLiquidityStake(eth: nat, rai: nat, minRai: nat, minEth: nat)
    | GetRewards(campaignId: string)
    | WithdrawHarvestRemoveLiquidity(amount: nat, campaignId: string, minRai: nat, minEth: nat)

  /** Why a handler threw before sending anything. */
  datatype Failure = NoSafeId | NoInternalCollateralBalance | ZeroInternalCollateralBalance | DivisionByZero

  /** A handler's outcome: it returned `false`, it threw, or it sends `action`. */
  datatype Request = NotSent | Failed(failure: Failure) | Send(action: ProxyAction)

  /** How much ETH an action puts into the safe. */
  function Locked(a: ProxyAction): nat {
    match a
    case OpenLockETHAndGenerateDebt(c, _) => c
    case LockETH(c, _) => c
    case LockETHAndGenerateDebt(c, _, _) => c
    case _ => 0
  }

  /** How much RAI an action draws from the safe. */
  function Generated(a: ProxyAction): nat {
    match a
    case OpenLockETHAndGenerateDebt(_, d) => d
    case GenerateDebt(_, d) => d
    case LockETHAndGenerateDebt(_, _, d) => d
    case _ => 0
  }

  /** How much ETH an action takes out of the safe. */
  function Freed(a: ProxyAction): nat {
    match a
    case RepayAllDebtAndFreeETH(_, c) => c
    case FreeETH(_, c) => c
    case RepayDebtAndFreeETH(_, c, _) => c
    case _ => 0
  }

  /** A repayment: a fixed amount, or the whole outstanding debt. */
  datatype Repayment = Amount(debt: nat) | AllDebt

  function Repaid(a: ProxyAction): Repayment {
    match a
    case RepayAllDebtAndFreeETH(_, _) => AllDebt
    case RepayAllDebt(_) => AllDebt
    case RepayDebt(_, d) => Amount(d)
    case RepayDebtAndFreeETH(_, _, d) => Amount(d)
    case _ => Amount(0)
  }

  /** The safe an action addresses, '' for one that opens a new safe. */
  function Target(a: ProxyAction): string {
    match a
    case GenerateDebt(id, _) => id
    case LockETH(_, id) => id
    case LockETHAndGenerateDebt(_, id, _) => id
    case RepayAllDebtAndFreeETH(id, _) => id
    case RepayAllDebt(id) => id
    case RepayDebt(id, _) => id
    case FreeETH(id, _) => id
    case RepayDebtAndFreeETH(id, _, _) => id
    case ExitETH(id, _) => id
    case _ => ""
  }

  /** The choice of `handleDepositAndBorrow`: a new safe without an id;
      otherwise debt only, collateral only, or both (also when both are zero). */
  function DepositAction(collateral: nat, debt: nat, safeId: string): (a: ProxyAction)
    ensures a.OpenLockETHAndGenerateDebt? <==> safeId == ""
    ensures a.GenerateDebt? <==> safeId != "" && collateral == 0 && debt != 0
    ensures a.LockETH? <==> safeId != "" && collateral != 0 && debt == 0
    ensures a.LockETHAndGenerateDebt? <==> safeId != "" && (collateral == 0 <==> debt == 0)
  {
    if safeId != "" then
      if collateral == 0 && debt != 0 then GenerateDebt(safeId, debt)
      else if collateral != 0 && debt == 0 then LockETH(collateral, safeId)
      else LockETHAndGenerateDebt(collateral, safeId, debt)
    else OpenLockETHAndGenerateDebt(collateral, debt)
  }

  /** Whatever branch is taken, the deposit action locks exactly the typed
      collateral, draws exactly the typed debt, and addresses the given safe. */
  lemma DepositActionMoves(collateral: nat, debt: nat, safeId: string)
    ensures var a := DepositAction(collateral, debt, safeId);
      Locked(a) == collateral && Generated(a) == debt && Freed(a) == 0 && Repaid(a) == Amount(0)
      && Target(a) == safeId
  {
  }

  /** `handleDepositAndBorrow`: nothing without a signer or pending edit. */
  function DepositRequest(h: Helpers, hasSigner: bool, safeData: Option<SafeData>, safeId: string): (r: Request)
    ensures !hasSigner || safeData.None? <==> r.NotSent?
    ensures r.Send? ==>
      && r.action == DepositAction(h.parseEther(safeData.value.leftInput), h.parseEther(safeData.value.rightInput), safeId)
      && Locked(r.action) == h.parseEther(safeData.value.leftInput)
      && Generated(r.action) == h.parseEther(safeData.value.rightInput)
    ensures !r.Failed?
  {
    if !hasSigner || safeData.None? then NotSent
    else
      var d := safeData.value;
      var collateral := h.parseEther(d.leftInput);
      var debt := h.parseEther(d.rightInput);
      DepositActionMoves(collateral, debt, safeId);
      Send(DepositAction(collateral, debt, safeId))
  }

  /** The choice of `handleRepayAndWithdraw`: the branches are tried in order
      and the first that matches wins. */
  function RepayAction(safeId: string, ethToFree: nat, raiToRepay: nat,
                       totalCollateral: nat, totalDebt: nat): (a: ProxyAction)
    ensures a.RepayAllDebtAndFreeETH? <==>
      ethToFree != 0 && raiToRepay != 0 && totalCollateral == 0 && totalDebt == 0
    ensures a.RepayAllDebt? <==> ethToFree == 0 && totalDebt == 0 && raiToRepay != 0
    ensures a.RepayDebt? <==> ethToFree == 0 && totalDebt != 0 && raiToRepay != 0
    ensures a.FreeETH? <==> ethToFree != 0 && raiToRepay == 0
    ensures a.RepayDebtAndFreeETH? <==>
      (ethToFree == 0 && raiToRepay == 0)
      || (ethToFree != 0 && raiToRepay != 0 && (totalCollateral != 0 || totalDebt != 0))
  {
    if ethToFree != 0 && raiToRepay != 0 && totalCollateral == 0 && totalDebt == 0 then
      RepayAllDebtAndFreeETH(safeId, ethToFree)
    else if ethToFree == 0 && totalDebt == 0 && raiToRepay != 0 then
      RepayAllDebt(safeId)
    else if ethToFree == 0 && raiToRepay != 0 then
      RepayDebt(safeId, raiToRepay)
    else if ethToFree != 0 && raiToRepay == 0 then
      FreeETH(safeId, ethToFree)
    else
      RepayDebtAndFreeETH(safeId, ethToFree, raiToRepay)
  }

  /** Whatever branch is taken, the repay action frees exactly the typed ETH,
      addresses the given safe, and repays the typed RAI, except that it repays
      the whole debt exactly when RAI is repaid, the resulting debt is zero,
      and either no ETH is freed or the resulting collateral is zero too. */
  lemma RepayActionMoves(safeId: string, ethToFree: nat, raiToRepay: nat,
                         totalCollateral: nat, totalDebt: nat)
    ensures var a := RepayAction(safeId, ethToFree, raiToRepay, totalCollateral, totalDebt);
      && Freed(a) == ethToFree && Locked(a) == 0 && Generated(a) == 0 && Target(a) == safeId
      && (Repaid(a) == AllDebt <==>
            raiToRepay != 0 && totalDebt == 0 && (ethToFree == 0 || totalCollateral == 0))
      && (Repaid(a) != AllDebt ==> Repaid(a) == Amount(raiToRepay))
  {
  }

  /** `handleRepayAndWithdraw`: nothing without a signer or pending edit, and
      it throws without a safe id. */
  function RepayRequest(h: Helpers, hasSigner: bool, safeData: Option<SafeData>, safeId: string): (r: Request)
    ensures !hasSigner || safeData.None? <==> r.NotSent?
    ensures r.Failed? <==> hasSigner && safeData.Some? && safeId == ""
    ensures r.Failed? ==> r.failure == NoSafeId
    ensures r.Send? ==>
      var d := safeData.value;
      && r.action == RepayAction(safeId, h.parseEther(d.leftInput), h.parseEther(d.rightInput),
                                 h.parseEther(d.totalCollateral), h.parseEther(d.totalDebt))
      && Target(r.action) == safeId != ""
      && Freed(r.action) == h.parseEther(d.leftInput)
  {
    if !hasSigner || safeData.None? then NotSent
    else if safeId == "" then Failed(NoSafeId)
    else
      var d := safeData.value;
      var a := RepayAction(safeId, h.parseEther(d.leftInput), h.parseEther(d.rightInput),
                           h.parseEther(d.totalCollateral), h.parseEther(d.totalDebt));
      RepayActionMoves(safeId, h.parseEther(d.leftInput), h.parseEther(d.rightInput),
                       h.parseEther(d.totalCollateral), h.parseEther(d.totalDebt));
      Send(a)
  }

  /** `handleCollectETH`: the id, then the internal balance, then a non-zero
      parsed balance are required before the exit is built. */
  function CollectRequest(h: Helpers, hasSigner: bool, safe: Option<Safe>): (r: Request)
    ensures !hasSigner || safe.None? <==> r.NotSent?
    ensures r.Failed? ==> r.failure in {NoSafeId, NoInternalCollateralBalance, ZeroInternalCollateralBalance}
    ensures r.Send? ==>
      && safe.value.id != "" && safe.value.internalCollateralBalance != ""
      && h.parseEther(safe.value.internalCollateralBalance) != 0
      && r.action == ExitETH(safe.value.id, h.parseEther(safe.value.internalCollateralBalance))
    ensures hasSigner && safe.Some? && safe.value.id == "" ==> r == Failed(NoSafeId)
    ensures hasSigner && safe.Some? && safe.value.id != "" && safe.value.internalCollateralBalance == "" ==>
      r == Failed(NoInternalCollateralBalance)
    ensures (hasSigner && safe.Some? && safe.value.id != "" && safe.value.internalCollateralBalance != ""
             && h.parseEther(safe.value.internalCollateralBalance) == 0) ==> r == Failed(ZeroInternalCollateralBalance)
    ensures (hasSigner && safe.Some? && safe.value.id != "" && safe.value.internalCollateralBalance != ""
             && h.parseEther(safe.value.internalCollateralBalance) != 0) ==>
      r == Send(ExitETH(safe.value.id, h.parseEther(safe.value.internalCollateralBalance)))
  {
    if !hasSigner || safe.None? then NotSent
    else
      var s := safe.value;
      if s.id == "" then Failed(NoSafeId)
      else if s.internalCollateralBalance == "" then Failed(NoInternalCollateralBalance)
      else
        var balance := h.parseEther(s.internalCollateralBalance);
        if balance == 0 then Failed(ZeroInternalCollateralBalance)
        else Send(ExitETH(s.id, balance))
  }

  /** 90% of an amount, rounded down as `BigNumber` division does. */
  function NinetyPercent(amount: nat): (r: nat)
    ensures r <= amount
    ensures 10 * r <= 9 * amount < 10 * r + 10
  {
    amount * 9 / 10
  }

  /** `handleIncentiveDeposit`: both amounts staked, with 90% of each as the
      minimum accepted. */
  function IncentiveDepositRequest(h: Helpers, hasSigner: bool, fields: Option<IncentivesFields>): (r: Request)
    ensures !hasSigner || fields.None? <==> r.NotSent?
    ensures !r.Failed?
    ensures r.Send? ==>
      var eth := h.parseEther(fields.value.ethAmount);
      var rai := h.parseEther(fields.value.raiAmount);
      && r.action.ProvideLiquidityStake?
      && r.action.eth == eth && r.action.rai == rai
      && r.action.minRai <= rai && 10 * r.action.minRai <= 9 * rai < 10 * r.action.minRai + 10
      && r.action.minEth <= eth && 10 * r.action.minEth <= 9 * eth < 10 * r.action.minEth + 10
  {
    if !hasSigner || fields.None? then NotSent
    else
      var eth := h.parseEther(fields.value.ethAmount);
      var rai := h.parseEther(fields.value.raiAmount);
      Send(ProvideLiquidityStake(eth, rai, NinetyPercent(rai), NinetyPercent(eth)))
  }

  /** `handleIncentiveClaim`: a campaign id is required. */
  function IncentiveClaimRequest(hasSigner: bool, campaignId: string): (r: Request)
    ensures r.NotSent? <==> !hasSigner || campaignId == ""
    ensures r.Send? ==> r.action == GetRewards(campaignId)
    ensures !r.Failed?
  {
    if !hasSigner || campaignId == "" then NotSent else Send(GetRewards(campaignId))
  }

  /** The withdraw minimum as `handleIncentiveWithdraw` writes it: the reserve
      is divided by the supply before the multiplication, so the per-token
      share is truncated to a whole number first. */
  function WithdrawMinimumAsWritten(amount: nat, reserve: nat, supply: nat): (r: nat)
    requires supply > 0
    ensures 10 * r <= 9 * (amount * (reserve / supply)) < 10 * r + 10
    ensures reserve < supply ==> r == 0
  {
    NinetyPercent(amount * (reserve / supply))
  }

  /** The withdraw minimum as intended: 90% of the pool share the withdrawn
      liquidity tokens stand for, `amount * reserve / supply`. */
  function WithdrawMinimum(amount: nat, reserve: nat, supply: nat): (r: nat)
    requires supply > 0
    ensures r <= amount * reserve / supply
    ensures 10 * r <= 9 * (amount * reserve / supply) < 10 * r + 10
  {
    NinetyPercent(amount * reserve / supply)
  }

  /** Truncating the share first only loses: the intended minimum is never
      below the one written. */
  lemma WithdrawMinimumDominates(amount: nat, reserve: nat, supply: nat)
    requires supply > 0
    ensures WithdrawMinimumAsWritten(amount, reserve, supply) <= WithdrawMinimum(amount, reserve, supply)
  {
    var q := reserve / supply;
    assert q * supply <= reserve;
    assert amount * q * supply <= amount * reserve by {
      MulMonotone(amount, q * supply, reserve);
    }
    DivLowerBound(amount * q, supply, amount * reserve);
    assert amount * q <= amount * reserve / supply;
    MulMonotone(9, amount * q, amount * reserve / supply);
    DivMonotone(9 * (amount * q), 9 * (amount * reserve / supply), 10);
  }

  lemma MulMonotone(k: nat, x: nat, y: nat)
    requires x <= y
    ensures k * x <= k * y
  {
  }

  lemma MulCancelLess(k: nat, x: nat, y: nat)
    requires k * x < k * y
    ensures x < y
  {
  }

  lemma DivLowerBound(x: nat, d: nat, y: nat)
    requires d > 0 && x * d <= y
    ensures x <= y / d
  {
    var q := y / d;
    assert y == d * q + y % d;
    assert d * (q + 1) == d * q + d;
    MulCancelLess(d, x, q + 1);
  }

  lemma DivMonotone(x: nat, y: nat, d: nat)
    requires d > 0 && x <= y
    ensures x / d <= y / d
  {
    var p, q := x / d, y / d;
    assert x == d * p + x % d;
    assert y == d * q + y % d;
    assert d * (q + 1) == d * q + d;
    MulCancelLess(d, p, q + 1);
  }

  /** One liquidity token of a pool holding 5 ETH against 10 tokens: the written
      minimum is 0, the intended one 0.45 ETH. */
  lemma WithdrawMinimumCollapses()
    ensures WithdrawMinimumAsWritten(1_000_000_000_000_000_000, 5_000_000_000_000_000_000, 10_000_000_000_000_000_000) == 0
    ensures WithdrawMinimum(1_000_000_000_000_000_000, 5_000_000_000_000_000_000, 10_000_000_000_000_000_000)
            == 450_000_000_000_000_000
  {
  }

  /** `handleIncentiveWithdraw`: every field must be present; a supply that
      parses to zero makes the division throw. The minimums are computed as
      written, dividing the reserve by the supply first (see
      `WithdrawMinimumAsWritten`). */
  function IncentiveWithdrawRequest(h: Helpers, hasSigner: bool, campaignId: string, uniPoolAmount: string,
                                    reserveRAI: string, reserveETH: string, coinTotalSupply: string): (r: Request)
    ensures r.NotSent? <==>
      !hasSigner || campaignId == "" || uniPoolAmount == "" || reserveRAI == "" || reserveETH == ""
      || coinTotalSupply == ""
    ensures r.Failed? <==> !r.NotSent? && h.parseEther(coinTotalSupply) == 0
    ensures r.Failed? ==> r.failure == DivisionByZero
    ensures r.Send? ==>
      var amount := h.parseEther(uniPoolAmount);
      var supply := h.parseEther(coinTotalSupply);
      && r.action.WithdrawHarvestRemoveLiquidity?
      && r.action.amount == amount && r.action.campaignId == campaignId
      && r.action.minRai == WithdrawMinimumAsWritten(amount, h.parseEther(reserveRAI), supply)
      && r.action.minEth == WithdrawMinimumAsWritten(amount, h.parseEther(reserveETH), supply)
      && r.action.minRai <= amount * h.parseEther(reserveRAI) / supply
      && r.action.minEth <= amount * h.parseEther(reserveETH) / supply
  {
    if !hasSigner || campaignId == "" || uniPoolAmount == "" || reserveRAI == "" || reserveETH == ""
       || coinTotalSupply == "" then NotSent
    else
      var amount := h.parseEther(uniPoolAmount);
      var supply := h.parseEther(coinTotalSupply);
      if supply == 0 then Failed(DivisionByZero)
      else
        var rai := h.parseEther(reserveRAI);
        var eth := h.parseEther(reserveETH);
        WithdrawMinimumDominates(amount, rai, supply);
        WithdrawMinimumDominates(amount, eth, supply);
        Send(WithdrawHarvestRemoveLiquidity(amount, campaignId,
          WithdrawMinimumAsWritten(amount, rai, supply), WithdrawMinimumAsWritten(amount, eth, supply)))
  }

  /** The withdraw handler with the intended minimums (see `WithdrawMinimum`):
      it stops in exactly the same cases, and when it sends, it withdraws the
      same amount from the same campaign, asking for at least the minimums the
      written handler asks for. */
  function IncentiveWithdrawRequestIntended(h: Helpers, hasSigner: bool, campaignId: string, uniPoolAmount: string,
                                            reserveRAI: string, reserveETH: string, coinTotalSupply: string): (r: Request)
    ensures var w := IncentiveWithdrawRequest(h, hasSigner, campaignId, uniPoolAmount, reserveRAI, reserveETH,
                                              coinTotalSupply);
      && (r.Send? <==> w.Send?) && (!r.Send? ==> r == w)
      && (r.Send? ==>
            && r.action.WithdrawHarvestRemoveLiquidity?
            && r.action.amount == w.action.amount && r.action.campaignId == w.action.campaignId
            && w.action.minRai <= r.action.minRai && w.action.minEth <= r.action.minEth)
    ensures r.Send? ==>
      var amount := h.parseEther(uniPoolAmount);
      var supply := h.parseEther(coinTotalSupply);
      && r.action.minRai == WithdrawMinimum(amount, h.parseEther(reserveRAI), supply)
      && r.action.minEth == WithdrawMinimum(amount, h.parseEther(reserveETH), supply)
  {
    var w := IncentiveWithdrawRequest(h, hasSigner, campaignId, uniPoolAmount, reserveRAI, reserveETH,
                                      coinTotalSupply);
    if !w.Send? then w
    else
      var amount := h.parseEther(uniPoolAmount);
      var supply := h.parseEther(coinTotalSupply);
      var rai := h.parseEther(reserveRAI);
      var eth := h.parseEther(reserveETH);
      WithdrawMinimumDominates(amount, rai, supply);
      WithdrawMinimumDominates(amount, eth, supply);
      Send(WithdrawHarvestRemoveLiquidity(amount, campaignId,
        WithdrawMinimum(amount, rai, supply), WithdrawMinimum(amount, eth, supply)))
  }
}
