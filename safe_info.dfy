/** The figures the safe edit form derives before it checks anything: the
    resulting totals, the amounts available in each mode, the safety verdict,
    the stats panel, the parsed inputs of the error chain, and the two input
    handlers that edit the pending `safeData`. */
module SafeInfo {
  import opened Common
  import opened SafeValidation
  import opened SafeStore

  /** The `value || '0'` idiom. */
  function OrZero(s: string): (r: string)
    ensures r != ""
    ensures s != "" ==> r == s
  {
    if s == "" then "0" else s
  }

  /** `useTotalCollateral`: the loaded safe's collateral combined with the
      typed amount (subtracting in the repay-and-withdraw form), or the typed
      amount alone when no safe is loaded; never empty. */
  function TotalCollateral(h: Helpers, singleSafe: Option<Safe>, leftInput: string, mode: SafeType): (r: string)
    ensures r != ""
    ensures singleSafe.None? ==> r == OrZero(leftInput)
    ensures singleSafe.Some? ==>
      r == OrZero(h.totalValue(singleSafe.value.collateral, leftInput, mode == RepayWithdraw))
  {
    OrZero(
      match singleSafe
      case None => leftInput
      case Some(s) =>
        if mode == RepayWithdraw then h.totalValue(s.collateral, leftInput, true)
        else h.totalValue(s.collateral, leftInput, false))
  }

  /** `useTotalDebt`: the loaded safe's debt, scaled by the accumulated rate,
      combined with the typed amount, or the typed amount alone; never empty. */
  function TotalDebt(h: Helpers, singleSafe: Option<Safe>, accumulatedRate: string,
                     rightInput: string, mode: SafeType): (r: string)
    ensures r != ""
    ensures singleSafe.None? ==> r == OrZero(rightInput)
    ensures singleSafe.Some? ==>
      r == OrZero(h.totalValue(h.totalDebt(singleSafe.value.debt, accumulatedRate), rightInput,
                               mode == RepayWithdraw))
  {
    OrZero(
      match singleSafe
      case None => rightInput
      case Some(s) =>
        var owed := h.totalDebt(s.debt, accumulatedRate);
        if mode == RepayWithdraw then h.totalValue(owed, rightInput, true)
        else h.totalValue(owed, rightInput, false))
  }

  /** `availableEth`: the formatted wallet balance when depositing, otherwise
      the loaded safe's collateral, or '0.00' without a safe. */
  function AvailableEth(h: Helpers, mode: SafeType, singleSafe: Option<Safe>, ethBalance: string): (r: string)
    ensures mode == DepositBorrow ==> r == h.formatNumber(ethBalance)
    ensures mode != DepositBorrow && singleSafe.Some? ==> r == singleSafe.value.collateral
    ensures mode != DepositBorrow && singleSafe.None? ==> r == "0.00"
  {
    if mode == DepositBorrow then h.formatNumber(ethBalance)
    else if singleSafe.Some? then singleSafe.value.collateral
    else "0.00"
  }

  /** `availableRai`: the borrowing headroom for a new safe or for a loaded safe
      being topped up, the owed debt when repaying a loaded safe, and '0.00'
      when a safe is needed but none is loaded. */
  function AvailableRai(h: Helpers, mode: SafeType, ld: LiquidationData, leftInput: string,
                        singleSafe: Option<Safe>): (r: string)
    ensures mode == Create ==>
      r == h.availableDebtNew(ld.currentPrice.safetyPrice, ld.accumulatedRate, leftInput)
    ensures mode == DepositBorrow && singleSafe.Some? ==>
      r == h.availableDebtOf(ld.currentPrice.safetyPrice, ld.accumulatedRate, leftInput,
                             singleSafe.value.collateral, singleSafe.value.debt)
    ensures mode == RepayWithdraw && singleSafe.Some? ==>
      r == h.totalDebt(singleSafe.value.debt, ld.accumulatedRate)
    ensures mode != Create && singleSafe.None? ==> r == "0.00"
  {
    match mode
    case Create => h.availableDebtNew(ld.currentPrice.safetyPrice, ld.accumulatedRate, leftInput)
    case DepositBorrow =>
      if singleSafe.Some? then
        h.availableDebtOf(ld.currentPrice.safetyPrice, ld.accumulatedRate, leftInput,
                          singleSafe.value.collateral, singleSafe.value.debt)
      else "0.00"
    case RepayWithdraw =>
      if singleSafe.Some? then h.totalDebt(singleSafe.value.debt, ld.accumulatedRate) else "0.00"
  }

  /** `useSafeIsSafe`: without a safety price every position counts as safe. */
  function IsSafeVerdict(h: Helpers, totalCollateral: string, totalDebt: string, safetyPrice: string): (r: bool)
    ensures safetyPrice == "" ==> r
    ensures safetyPrice != "" ==> r == h.safeIsSafe(totalCollateral, totalDebt, safetyPrice)
  {
    safetyPrice == "" || h.safeIsSafe(totalCollateral, totalDebt, safetyPrice)
  }

  /** What the stats panel shows for a collateral ratio. */
  datatype RatioShown = Percent(ratio: int) | Unbounded

  /** What the stats panel shows for a liquidation price. */
  datatype PriceShown = Dollars(price: int) | InvalidPrice

  /** A total of '0' is shown as '-'. */
  function TotalShown(total: string): (r: string)
    ensures total == "0" ==> r == "-"
    ensures total != "0" ==> r == total
  {
    if total == "0" then "-" else total
  }

  /** A positive ratio is shown as a percentage, anything else as '∞'. */
  function RatioShownOf(collateralRatio: int): (r: RatioShown)
    ensures r.Unbounded? <==> collateralRatio <= 0
    ensures r.Percent? ==> r.ratio == collateralRatio && r.ratio > 0
  {
    if collateralRatio > 0 then Percent(collateralRatio) else Unbounded
  }

  /** A positive liquidation price above the current ETH price is 'Invalid';
      a non-positive one is shown as $0. Both prices are compared as integers. */
  function LiquidationPriceShown(liquidationPrice: int, currentPrice: int): (r: PriceShown)
    ensures r.InvalidPrice? <==> liquidationPrice > 0 && liquidationPrice > currentPrice
    ensures r.Dollars? ==> r.price == (if liquidationPrice > 0 then liquidationPrice else 0)
  {
    if liquidationPrice > 0 then
      (if liquidationPrice > currentPrice then InvalidPrice else Dollars(liquidationPrice))
    else Dollars(0)
  }

  /** The stability fee is '-' when the collateral type reports none. */
  function StabilityFeeShown(h: Helpers, totalAnnualizedStabilityFee: string): (r: string)
    ensures totalAnnualizedStabilityFee == "" ==> r == "-"
    ensures totalAnnualizedStabilityFee != "" ==> r == h.ratePercentage(totalAnnualizedStabilityFee, 1)
  {
    if totalAnnualizedStabilityFee == "" then "-" else h.ratePercentage(totalAnnualizedStabilityFee, 1)
  }

  /** The wallet and store values `useSafeInfo` reads. `collateralRatio` and
      `repayPercent` are the results of helpers not part of this model. */
  datatype FormContext = FormContext(
    account: Option<string>,
    proxyAddress: Option<string>,
    safeData: SafeData,
    singleSafe: Option<Safe>,
    liquidationData: LiquidationData,
    ethBalance: string,
    raiBalance: string,
    collateralRatio: int,
    repayPercent: int)

  /** The values the error chain compares, each parsed to WAD as the form does:
      empty inputs and an empty RAI balance read as zero. The two debt ceilings
      the form reads through `numeral` are read here through the same WAD parse. */
  function ParsedInputs(h: Helpers, mode: SafeType, c: FormContext): (v: SafeInputs)
    ensures v.mode == mode
    ensures v.hasAccount <==> c.account.Some? && c.account.value != ""
    ensures v.hasProxy <==> c.proxyAddress.Some? && c.proxyAddress.value != ""
    ensures v.leftInput == AmountWad(h, c.safeData.leftInput)
    ensures v.rightInput == AmountWad(h, c.safeData.rightInput)
    ensures v.raiBalance == AmountWad(h, c.raiBalance)
    ensures v.availableEth == h.toWad(AvailableEth(h, mode, c.singleSafe, c.ethBalance))
    ensures v.availableRai ==
      h.toWad(AvailableRai(h, mode, c.liquidationData, c.safeData.leftInput, c.singleSafe))
    ensures v.totalDebt ==
      h.toWad(TotalDebt(h, c.singleSafe, c.liquidationData.accumulatedRate, c.safeData.rightInput, mode))
    ensures v.debtFloor == h.toWad(c.liquidationData.debtFloor)
    ensures v.globalDebtCeiling == h.toWad(c.liquidationData.globalDebtCeiling)
    ensures v.debtCeiling == h.toWad(c.liquidationData.debtCeiling)
    ensures v.perSafeDebtCeiling == h.toWad(c.liquidationData.perSafeDebtCeiling)
    ensures v.collateralRatio == c.collateralRatio && v.repayPercent == c.repayPercent
    ensures v.isSafe == IsSafeVerdict(h,
      TotalCollateral(h, c.singleSafe, c.safeData.leftInput, mode),
      TotalDebt(h, c.singleSafe, c.liquidationData.accumulatedRate, c.safeData.rightInput, mode),
      c.liquidationData.currentPrice.safetyPrice)
  {
    var ld := c.liquidationData;
    var totalCollateral := TotalCollateral(h, c.singleSafe, c.safeData.leftInput, mode);
    var totalDebt := TotalDebt(h, c.singleSafe, ld.accumulatedRate, c.safeData.rightInput, mode);
    SafeInputs(
      mode,
      c.account.Some? && c.account.value != "",
      c.proxyAddress.Some? && c.proxyAddress.value != "",
      AmountWad(h, c.safeData.leftInput),
      AmountWad(h, c.safeData.rightInput),
      h.toWad(AvailableEth(h, mode, c.singleSafe, c.ethBalance)),
      h.toWad(AvailableRai(h, mode, ld, c.safeData.leftInput, c.singleSafe)),
      AmountWad(h, c.raiBalance),
      h.toWad(totalDebt),
      h.toWad(ld.debtFloor),
      IsSafeVerdict(h, totalCollateral, totalDebt, ld.currentPrice.safetyPrice),
      c.collateralRatio,
      c.repayPercent,
      h.toWad(ld.globalDebtCeiling),
      h.toWad(ld.debtCeiling),
      h.toWad(ld.perSafeDebtCeiling))
  }

  /** Without a loaded safe in the repay-and-withdraw form nothing can be
      unlocked or repaid: any typed amount trips the first limit it meets. */
  lemma RepayWithoutSafe(h: Helpers, c: FormContext)
    requires c.singleSafe.None?
    requires c.account.Some? && c.account.value != "" && c.proxyAddress.Some? && c.proxyAddress.value != ""
    requires h.toWad("0.00") == 0
    ensures var v := ParsedInputs(h, RepayWithdraw, c);
      && (v.leftInput == 0 && v.rightInput == 0 ==> SafeInfoError(v) == Some(EnterFreeOrRepay))
      && (v.leftInput > 0 ==> SafeInfoError(v) == Some(UnlockExceedsAvailable))
      && (v.leftInput == 0 && v.rightInput > 0 ==> SafeInfoError(v) == Some(RepayExceedsOwed))
  {
    var v := ParsedInputs(h, RepayWithdraw, c);
    RepayWithdrawPrecedence(v);
  }

  /** `onLeftInput`: an empty value resets the whole pending edit, any other
      value replaces the deposit/withdraw amount only. */
  method OnLeftInput(model: SafeModel, typedValue: string)
    modifies model
    ensures typedValue == "" ==> model.Snapshot() == old(model.Snapshot()).(safeData := DefaultSafeState)
    ensures typedValue != "" ==>
      model.Snapshot() == old(model.Snapshot()).(safeData := old(model.safeData).(leftInput := typedValue))
  {
    if typedValue == "" {
      model.SetSafeData(DefaultSafeState);
      return;
    }
    model.SetSafeData(model.safeData.(leftInput := typedValue));
  }

  /** `onRightInput`: the same for the borrow/repay amount. */
  method OnRightInput(model: SafeModel, typedValue: string)
    modifies model
    ensures typedValue == "" ==> model.Snapshot() == old(model.Snapshot()).(safeData := DefaultSafeState)
    ensures typedValue != "" ==>
      model.Snapshot() == old(model.Snapshot()).(safeData := old(model.safeData).(rightInput := typedValue))
  {
    if typedValue == "" {
      model.SetSafeData(DefaultSafeState);
      return;
    }
    model.SetSafeData(model.safeData.(rightInput := typedValue));
  }
}
