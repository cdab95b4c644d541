/** Values shared by the wallet front-end model: the optional wrapper, the
    fixed-point precisions, the safe edit record and the opaque numeric helpers. */
module Common {

  datatype Option<+T> = None | Some(value: T)

  /** The fixed-point scales of `floatsTypes`: WAD has 18 decimals, RAY 27. */
  const Wad: nat := 1_000_000_000_000_000_000
  const Ray: nat := 1_000_000_000_000_000_000_000_000_000

  /** Integer division rounds down and loses less than one divisor. */
  lemma DivFloor(x: nat, d: nat)
    requires d > 0
    ensures (x / d) * d <= x < (x / d) * d + d
    ensures x < d ==> x / d == 0
  {
  }

  /** The pending edit of a safe and the figures derived from it (`ISafeData`). */
  datatype SafeData = SafeData(
    totalCollateral: string,
    totalDebt: string,
    leftInput: string,
    rightInput: string,
    collateralRatio: int,
    liquidationPrice: int)

  /** `DEFAULT_SAFE_STATE`: every text field empty, both figures zero. */
  const DefaultSafeState: SafeData := SafeData("", "", "", "", 0, 0)

  /** One safe as fetched from the indexer (`ISafe`), the fields the core reads. */
  datatype Safe = Safe(
    id: string,
    collateral: string,
    debt: string,
    internalCollateralBalance: string)

  datatype CurrentPrice = CurrentPrice(liquidationPrice: string, safetyPrice: string, value: string)

  /** System-wide parameters of the collateral type (`ILiquidationData`), as decimal strings. */
  datatype LiquidationData = LiquidationData(
    accumulatedRate: string,
    currentPrice: CurrentPrice,
    debtFloor: string,
    debtCeiling: string,
    globalDebt: string,
    liquidationCRatio: string,
    liquidationPenalty: string,
    safetyCRatio: string,
    currentRedemptionPrice: string,
    totalAnnualizedStabilityFee: string,
    currentRedemptionRate: string,
    perSafeDebtCeiling: string,
    globalDebtCeiling: string)

  /** The numeric helpers whose bodies are not part of this model. Each is an
      arbitrary total function; nothing is assumed about its rounding. */
  datatype Helpers = Helpers(
    /** `toFixedString(s, 'WAD')` read as an integer scaled by 10^18 */
    toWad: string -> nat,
    /** `toFixedString(s, 'RAD')` read as an integer scaled by 10^45 */
    toRad: string -> nat,
    /** `ethersUtils.parseEther(s)` */
    parseEther: string -> nat,
    /** `gebUtils.wadToFixed(x).toString()` */
    wadToFixed: nat -> string,
    /** `formatNumber(s)` */
    formatNumber: string -> string,
    /** `returnTotalValue(a, b)`, or `returnTotalValue(a, b, true, true)` when the flag is set */
    totalValue: (string, string, bool) -> string,
    /** `returnTotalDebt(debt, accumulatedRate)` */
    totalDebt: (string, string) -> string,
    /** `returnAvaiableDebt(safetyPrice, accumulatedRate, leftInput)` */
    availableDebtNew: (string, string, string) -> string,
    /** `returnAvaiableDebt(safetyPrice, accumulatedRate, leftInput, collateral, debt)` */
    availableDebtOf: (string, string, string, string, string) -> string,
    /** `safeIsSafe(totalCollateral, totalDebt, safetyPrice)` */
    safeIsSafe: (string, string, string) -> bool,
    /** `getRatePercentage(rate, digits)` */
    ratePercentage: (string, int) -> string)

  /** The `s ? toFixedString(s, 'WAD') : 0` idiom: an empty string reads as zero. */
  function AmountWad(h: Helpers, s: string): (r: nat)
    ensures s == "" ==> r == 0
    ensures s != "" ==> r == h.toWad(s)
  {
    if s == "" then 0 else h.toWad(s)
  }
}
