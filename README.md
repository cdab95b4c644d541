# geb-app wallet core, modelled in Dafny

This project models the core of the geb-app wallet front-end for RAI, the
Reflexer stable coin. It covers the following parts:

- **Safe edit form** (`useSafe`). It derives the totals, the available
  amounts and the stats panel of a safe being created, topped up
  (deposit/borrow) or paid down (repay/withdraw). It then runs one ordered
  chain of sixteen checks. The first check that fails supplies the single
  message shown.
- **Transaction handlers** (`blockchain.ts`). Each handler picks one proxy
  action from zero tests on the parsed amounts. The incentive handlers also
  compute slippage minimums.
- **Safe store** (`safeModel`). It holds one setter per field and the thunks
  that update it after a transaction or an indexer fetch.
- **Onboarding steps** (`Steps`). They run connect wallet, create account and
  create safe, including the count of confirmations of the account
  transaction.
- **Block-number tracker** (`ApplicationUpdater`).
- **Create-safe wizard body**.
- **Incentives payment form**.
- **Saviour confirmation step**.

Amounts are WAD-scaled integers (value × 10^18), as the source's `BigNumber`
arithmetic uses them. Decimal strings stay strings. The source's numeric
helpers, whose bodies lie outside this core, are arbitrary total functions
collected in `Common.Helpers`. Every property proved here holds for every
choice of those helpers, except `SafeInfo.RepayWithoutSafe`. That lemma also
assumes that `toFixedString('0.00', 'WAD')` is zero.

The store slices the core writes to but does not define are classes with one
setter per field: connect wallet, popups, transactions, wizard and incentives
(`stores.dfy`). Components with local state are classes too, whose methods
are the component's handlers. Every foreign call becomes a parameter: a
wallet transaction, an indexer query, or a saviour callback.

The modules are:

- `Common`
- `Stores`
- `SafeStore`: `src/model/safeModel.ts`
- `SafeValidation` and `SafeInfo`: `src/hooks/useSafe.ts`
- `Blockchain`: `src/services/blockchain.ts`
- `IncentivesPayment`: `src/components/IncentivesOperations/IncentivesPayment.tsx`
- `Steps`: `src/components/Steps.tsx`
- `ApplicationUpdater`: `src/services/ApplicationUpdater.ts`
- `CreateSafeBody`: `src/components/CreateSafe/CreateSafeBody.tsx`
- `SaviourTransactions`: `src/components/SaviourOperations/SaviourTransactions.tsx`

The safe form's error chain is modelled twice:

- `SafeValidation.ComputeSafeError` is the imperative chain of
  `error = error ?? message` statements.
- `SafeValidation.SafeInfoError` is the first failing entry of the ordered
  list `RuleOrder`.

The method is proved equal to the function. The lemmas about the function
state:

- which message wins;
- that a message is shown exactly when its check fails and every earlier one
  passes;
- the precedence inside each form mode.

## Model

| member | source | states |
|---|---|---|
| Common.AmountWad | src/hooks/useSafe.ts:131-141 | An empty amount reads as zero; any other amount reads as its WAD value. |
| SafeValidation.FirstFailure | src/hooks/useSafe.ts:227-331 | A reported message belongs to a check that fails on the inputs. |
| SafeValidation.Coalesce | src/hooks/useSafe.ts:233-235 | `error ?? message` keeps an earlier message. Otherwise it reports this check exactly when the check fails. |
| SafeValidation.ComputeSafeError | src/hooks/useSafe.ts:227-331 | The sixteen statements of the chain, run in order, leave exactly the first failing check of the rule list. |
| SafeValidation.ChainAfterIsFirstFailure | src/hooks/useSafe.ts:227-331 | After any number k of the statements, the chain's value is the first failure among the first k rules. |
| SafeValidation.FirstFailureAppend | src/hooks/useSafe.ts:227-331 | Checks written after a group that already failed never change the message. After a silent group, the later checks are consulted in order. |
| SafeValidation.FirstFailureSticky | src/hooks/useSafe.ts:227-331 | Once a check has failed, no later check replaces its message. |
| SafeValidation.FirstFailureIsFirst | src/hooks/useSafe.ts:227-331 | A failing check preceded only by passing checks is the one reported. |
| SafeValidation.FirstFailureSnoc | src/hooks/useSafe.ts:227-331 | One more `error ?? message` statement after a list is the coalescing of that list's result with the new check. |
| SafeValidation.RuleOrderDistinct | src/hooks/useSafe.ts:227-331 | No check occurs twice in the chain. |
| SafeValidation.FirstFailureNone | src/hooks/useSafe.ts:227-331 | When no check fails, no message is shown. |
| SafeValidation.FirstFailureCons | src/hooks/useSafe.ts:227-331 | The first check of a list decides if it fails; otherwise the rest of the list decides. |
| SafeValidation.AccessRulesFirst | src/hooks/useSafe.ts:229-235 | A missing account gives 'Connect Wallet'. Otherwise a missing proxy gives 'Create a Reflexer Account'. |
| SafeValidation.DepositBorrowRulesFirst | src/hooks/useSafe.ts:237-249 | The deposit/borrow checks in order: insufficient balance, borrowing over the available amount, both inputs empty. |
| SafeValidation.RepayWithdrawRulesFirst | src/hooks/useSafe.ts:251-284 | The repay/withdraw checks in order: both inputs empty, unlock over available, repay over owed, residual repay, wallet balance. |
| SafeValidation.FirstFailureNoLaterThan | src/hooks/useSafe.ts:227-331 | If the check at position j fails, some check at or before j is reported. |
| SafeValidation.ReportedIffFirstFailing | src/hooks/useSafe.ts:227-331 | The message of check i is shown if and only if check i fails and every earlier check passes. |
| SafeValidation.SafeInfoErrorByGroup | src/hooks/useSafe.ts:227-331 | Groups are consulted in order (access, deposit/borrow, repay/withdraw, common limits). A group speaks only when all earlier groups were silent. |
| SafeValidation.NoAccountMeansConnectWallet | src/hooks/useSafe.ts:229-231 | Without a connected account the message is always 'Connect Wallet'. |
| SafeValidation.DepositBorrowPrecedence | src/hooks/useSafe.ts:237-249 | In the deposit/borrow form with an account and a proxy, the message follows the mode's precedence. It falls through to the common limit checks. |
| SafeValidation.RepayWithdrawPrecedence | src/hooks/useSafe.ts:251-284 | In the repay/withdraw form with an account and a proxy, the message follows the mode's five-step precedence. It falls through to the common limit checks. |
| SafeValidation.DebtFloorRule | src/hooks/useSafe.ts:286-292 | The floor message needs 0 < total debt < floor, and zero debt never triggers it. It is shown whenever the first ten checks pass and the debt is below the floor. |
| SafeValidation.CeilingAndCreateRules | src/hooks/useSafe.ts:316-331 | The per-safe ceiling is never reported in the create form, and a debt equal to the ceiling is rejected. 'Enter ETH Amount' is shown in the create form when nothing earlier failed. |
| SafeInfo.TotalCollateral | src/hooks/useSafe.ts:349-367 | The result is never empty. With a loaded safe it is its collateral combined with the typed amount (subtracting when repaying). Otherwise it is the typed amount or '0'. |
| SafeInfo.TotalDebt | src/hooks/useSafe.ts:369-393 | The result is never empty. With a loaded safe it is the rate-scaled debt combined with the typed amount. Otherwise it is the typed amount or '0'. |
| SafeInfo.AvailableEth | src/hooks/useSafe.ts:76-85 | The formatted wallet balance when depositing. Otherwise the safe's collateral, or '0.00' without a safe. |
| SafeInfo.AvailableRai | src/hooks/useSafe.ts:87-113 | The headroom for a new or topped-up safe, or the owed debt when repaying. '0.00' when a safe is needed and none is loaded. |
| SafeInfo.IsSafeVerdict | src/hooks/useSafe.ts:433-442 | Without a safety price every position counts as safe. |
| SafeInfo.TotalShown | src/hooks/useSafe.ts:149-160 | A total of '0' is shown as '-', any other total unchanged. |
| SafeInfo.RatioShownOf | src/hooks/useSafe.ts:161-164 | The ratio is shown as '∞' exactly when it is not positive. |
| SafeInfo.LiquidationPriceShown | src/hooks/useSafe.ts:189-197 | The price is 'Invalid' exactly when it is positive and above the ETH price. A non-positive price is shown as $0. |
| SafeInfo.StabilityFeeShown | src/hooks/useSafe.ts:118-122 | The fee is '-' exactly when the collateral type reports none. |
| SafeInfo.ParsedInputs | src/hooks/useSafe.ts:124-146 | Each value the error chain compares is the WAD parse of the matching derived figure: inputs, balances, available amounts, total debt, debt floor and the three ceilings. Empty inputs and an empty RAI balance read as zero. The collateral ratio and the repay percentage pass through unchanged. |
| SafeInfo.RepayWithoutSafe | src/hooks/useSafe.ts:104-112 | In the repay form without a loaded safe, any typed ETH trips 'cannot exceed available'. Typed RAI alone trips 'cannot exceed owed'. Nothing typed gives the prompt. |
| SafeInfo.OnLeftInput | src/hooks/useSafe.ts:452-464 | An empty value resets the pending edit to the defaults. Any other value replaces only the left amount. |
| SafeInfo.OnRightInput | src/hooks/useSafe.ts:465-477 | The same for the right amount. |
| SafeStore.DepositSummary | src/model/safeModel.ts:121-123 | 'Modifying Safe' exactly when a safe id is given, 'Creating a new Safe' exactly when not. |
| SafeStore.DepositPayload | src/model/safeModel.ts:128-141 | A new safe is shown as a create submission without a hash. A modified safe is shown with the transaction hash. |
| SafeStore.WalletAfterFetch | src/model/safeModel.ts:250-266 | The RAI balance for the chain is always replaced. With proxy data, the address is kept unless a non-empty one arrived, and the allowance becomes the returned amount or ''. Step, loading, hash and blocks are untouched. |
| SafeStore.SafeModel.constructor | src/model/safeModel.ts:75-107 | The store starts in its declared initial state. |
| SafeStore.SafeModel.SetIsSafeCreated | src/model/safeModel.ts:270-272 | Only `safeCreated` changes. |
| SafeStore.SafeModel.SetList | src/model/safeModel.ts:273-275 | Only `list` changes. |
| SafeStore.SafeModel.SetSingleSafe | src/model/safeModel.ts:276-278 | Only `singleSafe` changes. |
| SafeStore.SafeModel.SetOperation | src/model/safeModel.ts:279-281 | Only `operation` changes. |
| SafeStore.SafeModel.SetTotalEth | src/model/safeModel.ts:282-284 | Only `totalEth` changes. |
| SafeStore.SafeModel.SetTotalRAI | src/model/safeModel.ts:285-287 | Only `totalRAI` changes. |
| SafeStore.SafeModel.SetIsES | src/model/safeModel.ts:288-290 | Only `isES` changes. |
| SafeStore.SafeModel.SetLiquidationData | src/model/safeModel.ts:292-294 | Only `liquidationData` changes. |
| SafeStore.SafeModel.SetSafeData | src/model/safeModel.ts:296-298 | Only `safeData` changes. |
| SafeStore.SafeModel.SetUniSwapPool | src/model/safeModel.ts:299-301 | Only `uniSwapPool` changes. |
| SafeStore.SafeModel.SetIsUniSwapPoolChecked | src/model/safeModel.ts:302-304 | Only `isUniSwapPoolChecked` changes. |
| SafeStore.SafeModel.SetStage | src/model/safeModel.ts:305-307 | Only `stage` changes. |
| SafeStore.SafeModel.SetSafeHistoryList | src/model/safeModel.ts:308-310 | Only `historyList` changes. |
| SafeStore.SafeModel.SetIsSuccessfulTx | src/model/safeModel.ts:311-313 | Only `isSuccessfulTx` changes. |
| SafeStore.SafeModel.DepositAndBorrow | src/model/safeModel.ts:108-151 | A sent transaction is recorded, the waiting modal opens with its payload, and stage, pool values and pending edit are reset. Without a transaction only the onboarding moves to step 2 with loading off. |
| SafeStore.SafeModel.RepayAndWithdraw | src/model/safeModel.ts:152-183 | A sent transaction is recorded as 'Modifying Safe' and shown with its hash, and the same three resets follow. Without one nothing changes. |
| SafeStore.SafeModel.CollectETH | src/model/safeModel.ts:184-205 | A sent transaction is recorded as 'Collecting ETH' and shown with its hash. The safe store is never touched. |
| SafeStore.SafeModel.FetchUserSafes | src/model/safeModel.ts:206-239 | The store takes the fetched list and liquidation data, and `safeCreated` is whether the list is non-empty. The wallet step, the loading flag, the waiting payload and the balance change as each branch says. Nothing else in the wallet changes. |
| SafeStore.SafeModel.FetchSafeById | src/model/safeModel.ts:241-268 | The store takes the first safe (none for an empty list), a non-empty history and the liquidation data. The wallet becomes `WalletAfterFetch`. |
| SafeStore.SafeModel.ApplyFetchedWallet | src/model/safeModel.ts:250-266 | The connect-wallet updates leave the wallet at `WalletAfterFetch`. |
| Blockchain.DepositAction | src/services/blockchain.ts:31-45 | Opens a new safe exactly when there is no id. Otherwise it draws debt only, locks collateral only, or does both (also when both are zero), each in exactly its case. |
| Blockchain.DepositActionMoves | src/services/blockchain.ts:31-45 | Whatever branch is taken, the action locks exactly the typed ETH, draws exactly the typed RAI, frees and repays nothing, and addresses the given safe. |
| Blockchain.DepositRequest | src/services/blockchain.ts:13-53 | Nothing is sent exactly when the signer or the pending edit is missing. Otherwise the action moves the parsed amounts. |
| Blockchain.RepayAction | src/services/blockchain.ts:75-94 | Each of the five actions is chosen exactly in its case, stated as an if-and-only-if on the four zero tests. |
| Blockchain.RepayActionMoves | src/services/blockchain.ts:75-94 | The action frees exactly the typed ETH and addresses the given safe. It repays the whole debt exactly when RAI is repaid, the resulting debt is zero, and no ETH is freed or the resulting collateral is zero. Otherwise it repays exactly the typed RAI. |
| Blockchain.RepayRequest | src/services/blockchain.ts:55-102 | Nothing is sent without a signer or an edit. It throws 'No safe Id' exactly when those are present but the id is empty. Otherwise it sends the chosen repay action. |
| Blockchain.CollectRequest | src/services/blockchain.ts:104-137 | It stops on the first missing piece: the id, then the internal balance, then a zero parsed balance. Otherwise it exits exactly the parsed internal balance from the safe. |
| Blockchain.NinetyPercent | src/services/blockchain.ts:156-159 | The result is 9/10 of the amount rounded down, never above the amount. |
| Blockchain.IncentiveDepositRequest | src/services/blockchain.ts:139-173 | Nothing is sent without a signer or fields. Otherwise both amounts are staked with 90% of each, rounded down, as the minimum. |
| Blockchain.IncentiveClaimRequest | src/services/blockchain.ts:175-195 | Rewards are claimed exactly when there is a signer and a campaign id. |
| Blockchain.WithdrawMinimumAsWritten | src/services/blockchain.ts:227-234 | As written, the minimum is 90% of amount × (reserve / supply), rounded down, with the share truncated first. So it is 0 whenever the reserve is smaller than the liquidity-token supply. |
| Blockchain.WithdrawMinimum | src/services/blockchain.ts:227-234 | The corrected minimum is 90% of the pool share `amount × reserve / supply`, rounded down. |
| Blockchain.WithdrawMinimumDominates | src/services/blockchain.ts:227-234 | The corrected minimum is never below the one written. |
| Blockchain.WithdrawMinimumCollapses | src/services/blockchain.ts:227-234 | On 1 token of a 10-token pool holding 5 ETH, the written minimum is 0 and the corrected one is 0.45 ETH. |
| Blockchain.IncentiveWithdrawRequest | src/services/blockchain.ts:197-247 | Nothing is sent exactly when a field is missing, and a zero supply makes the division throw. Otherwise it withdraws the typed amount from the campaign, with the minimums computed as written (share truncated first). |
| Blockchain.IncentiveWithdrawRequestIntended | src/services/blockchain.ts:197-247 | The handler with the intended minimums stops in exactly the cases the written one does. When it sends, it withdraws the same amount from the same campaign, with 90% of the pool share as each minimum, never below the written minimum. |
| IncentivesPayment.IncentiveValidation | src/components/IncentivesOperations/IncentivesPayment.tsx:53-112 | For a deposit, each message appears if and only if its check is the first to fail, and the form passes if and only if both amounts are non-zero and covered by the balances. For a withdrawal the same holds for the UniPool amount against the staked balance. Other kinds always pass. |
| IncentivesPayment.CoinAllowancePassed | src/components/IncentivesOperations/IncentivesPayment.tsx:119-131 | False without an allowance. Otherwise true exactly when the allowance covers the RAI amount. |
| IncentivesPayment.SubmitOperation | src/components/IncentivesOperations/IncentivesPayment.tsx:135-141 | The approval step 2 exactly for a deposit the allowance does not cover. Otherwise the confirmation step 3. |
| IncentivesPayment.PriceFor | src/components/IncentivesOperations/IncentivesPayment.tsx:157-163 | `token0Price` exactly when the typed side and the coin's position in the pair agree, otherwise `token1Price`. |
| IncentivesPayment.Converted | src/components/IncentivesOperations/IncentivesPayment.tsx:165-172 | The converted amount is the floor of value × (price cut to RAY) / WAD. It is zero for a price below one RAY unit. |
| IncentivesPayment.IncentivesPaymentForm.constructor | src/components/IncentivesOperations/IncentivesPayment.tsx:33-36 | The form starts empty with no message. |
| IncentivesPayment.IncentivesPaymentForm.ValidationChecker | src/components/IncentivesOperations/IncentivesPayment.tsx:53-112 | Passes exactly when `IncentiveValidation` finds nothing. On failure it shows that message, and it changes nothing else. |
| IncentivesPayment.IncentivesPaymentForm.HandleSubmit | src/components/IncentivesOperations/IncentivesPayment.tsx:133-142 | A failed validation leaves the operation alone. A passed one moves it to `SubmitOperation`. |
| IncentivesPayment.IncentivesPaymentForm.HandleCancel | src/components/IncentivesOperations/IncentivesPayment.tsx:114-117 | Closes the incentives modal and returns to operation 0. |
| IncentivesPayment.IncentivesPaymentForm.HandleChange | src/components/IncentivesOperations/IncentivesPayment.tsx:144-183 | Clears the message, and an empty value clears both amounts here and in the store. Without pool addresses nothing else happens. Otherwise the typed side keeps the value, the other side gets the converted amount, and the store holds the same pair. |
| IncentivesPayment.IncentivesPaymentForm.HandleUniPoolChange | src/components/IncentivesOperations/IncentivesPayment.tsx:185-188 | The typed UniPool amount is kept both here and in the store. |
| IncentivesPayment.IncentivesPaymentForm.SyncFields | src/components/IncentivesOperations/IncentivesPayment.tsx:190-193 | The form's amounts become the store's. |
| IncentivesPayment.IncentivesPaymentForm.SyncUniPool | src/components/IncentivesOperations/IncentivesPayment.tsx:195-197 | The form's UniPool amount becomes the store's. |
| Steps.ConfirmationCount | src/components/Steps.tsx:55-56 | The recorded count is the block difference capped at 10. |
| Steps.ConfirmationShown | src/components/Steps.tsx:171-180 | No count shows 0, any count above 10 shows 10, and any other count (0, a negative one, or one up to 10) shows itself. |
| Steps.ShownCountInRange | src/components/Steps.tsx:55-56 | For any block of the account transaction not ahead of the current one, the count shown stays within 0..10. |
| Steps.StepContentOf | src/components/Steps.tsx:120-158 | Steps 0, 1 and 2 each render their own content, and any other step renders nothing. |
| Steps.StepBarsOf | src/components/Steps.tsx:162-169 | No bars at step 0. Otherwise the first bar is active and the second is active exactly at step 2. |
| Steps.StepsView.constructor | src/components/Steps.tsx:19 | No confirmation count is known at first. |
| Steps.StepsView.ReturnConfirmations | src/components/Steps.tsx:41-64 | A no-op unless chain, block, account transaction and step 1 are all present. Then loading is switched on and the capped count is recorded. More than ten blocks end loading and move to step 2. |
| Steps.HandleCreateAccount | src/components/Steps.tsx:80-110 | Starts exactly with an account, a library and a chain. An accepted transaction is recorded with its hash and shown as submitted. A refusal or a failed wait switches loading off. |
| ApplicationUpdater.OnBlock | src/services/ApplicationUpdater.ts:20-35 | A report for another chain is ignored. The first report is taken as is, and later ones keep the maximum. |
| ApplicationUpdater.OnBlockMonotone | src/services/ApplicationUpdater.ts:20-35 | The recorded block number never decreases. |
| ApplicationUpdater.OnBlockIdempotent | src/services/ApplicationUpdater.ts:20-35 | Reporting the recorded block again changes nothing. |
| ApplicationUpdater.OnBlockCommutes | src/services/ApplicationUpdater.ts:20-35 | Two reports give the same state in either order. |
| ApplicationUpdater.SeqMax | src/services/ApplicationUpdater.ts:28 | The maximum of a non-empty list is one of its elements and bounds all of them. |
| ApplicationUpdater.ReplayKeepsMaximum | src/services/ApplicationUpdater.ts:20-57 | After attaching, any series of reports for the chain leaves exactly the highest block reported. |
| ApplicationUpdater.ReplayOtherChain | src/services/ApplicationUpdater.ts:20-35 | Reports for another chain never change the state. |
| ApplicationUpdater.Updater.constructor | src/services/ApplicationUpdater.ts:12-18 | The tracker starts on the connected chain with no block. |
| ApplicationUpdater.Updater.BlockNumberCallback | src/services/ApplicationUpdater.ts:20-35 | The new state is `OnBlock` of the old one. |
| ApplicationUpdater.Updater.Attach | src/services/ApplicationUpdater.ts:38-57 | Attaches exactly with a library, a chain and a visible window, and then restarts on that chain with no block. Otherwise nothing changes. |
| ApplicationUpdater.Dispatch | src/services/ApplicationUpdater.ts:61-73 | With a chain, a block and a visible window, only that chain's block number is written to the wallet store. Otherwise nothing changes. |
| CreateSafeBody.StageAfterDefaults | src/components/CreateSafe/CreateSafeBody.tsx:37-41 | Stage 1 exactly when the pool box is ticked, stage 2 exactly when not. |
| CreateSafeBody.SubmitLabelOf | src/components/CreateSafe/CreateSafeBody.tsx:161-165 | 'uniswap_pool' exactly on the first page with the box ticked, otherwise 'review_transaction'. |
| CreateSafeBody.CreateSafeForm.constructor | src/components/CreateSafe/CreateSafeBody.tsx:16-25 | The box starts as `isChecked` and both records are empty. |
| CreateSafeBody.CreateSafeForm.SubmitDefaultValues | src/components/CreateSafe/CreateSafeBody.tsx:34-42 | Stores the defaults and the box, then moves to `StageAfterDefaults`. |
| CreateSafeBody.CreateSafeForm.SubmitUniSwapPool | src/components/CreateSafe/CreateSafeBody.tsx:44-47 | Stores the pool values and moves to stage 2. |
| CreateSafeBody.CreateSafeForm.Submit | src/components/CreateSafe/CreateSafeBody.tsx:160 | The pool page submits the pool values, and the first page submits the defaults. |
| CreateSafeBody.CreateSafeForm.HandleCancel | src/components/CreateSafe/CreateSafeBody.tsx:49-73 | The pool page only returns to stage 0. The first page also unticks the pool, closes the modal and empties all four records. |
| CreateSafeBody.CreateSafeForm.EditDefaultEth | src/components/CreateSafe/CreateSafeBody.tsx:87-88 | Only the default ETH amount changes. |
| CreateSafeBody.CreateSafeForm.EditDefaultRai | src/components/CreateSafe/CreateSafeBody.tsx:96-97 | Only the default RAI amount changes. |
| CreateSafeBody.CreateSafeForm.EditUniSwapEth | src/components/CreateSafe/CreateSafeBody.tsx:109-110 | Only the pool's ETH amount changes. |
| CreateSafeBody.CreateSafeForm.EditUniSwapRai | src/components/CreateSafe/CreateSafeBody.tsx:116-117 | Only the pool's RAI amount changes. |
| CreateSafeBody.CreateSafeForm.ToggleUniSwapPool | src/components/CreateSafe/CreateSafeBody.tsx:143-146 | The box is set both in the body and in the store. |
| CreateSafeBody.CreateSafeForm.SyncFromStore | src/components/CreateSafe/CreateSafeBody.tsx:75-78 | The body's records become the stored ones. |
| SaviourTransactions.PayloadOf | src/components/SaviourOperations/SaviourTransactions.tsx:73-80 | The payload carries the shown amount and ratio. It is marked changed exactly when the ratio differs from the rescue ratio. |
| SaviourTransactions.ChooseSaviourCall | src/components/SaviourOperations/SaviourTransactions.tsx:81-94 | Exactly one call is made, each in exactly its case. A withdrawal carries the max flag. |
| SaviourTransactions.HandleBack | src/components/SaviourOperations/SaviourTransactions.tsx:45 | Only the operation returns to 0. |
| SaviourTransactions.HandleClose | src/components/SaviourOperations/SaviourTransactions.tsx:47-54 | The operation returns to 0 and the saviour fields reset. The saviour modal closes, and nothing else changes. |
| SaviourTransactions.HandleConfirm | src/components/SaviourOperations/SaviourTransactions.tsx:56-98 | Nothing happens without an account, a library and saviour data. Otherwise the step closes, the waiting modal names the kind, and the call is chosen from the values shown before the close. |

## Left out

- Building the proxy, gas estimation (`handlePreTxGasEstimate`), `sendTransaction` and `wait` are not modelled. A handler's result is the request it would send.
- Thunks and handlers take the outcome of a transaction or indexer query as a parameter. This covers `fetchUserSafes`, `fetchSafeById` and the saviour callbacks.
- The numeric helpers are arbitrary functions. Their bodies are not part of this model: `toFixedString`, `parseEther`, `returnTotalValue`, `returnTotalDebt`, `returnAvaiableDebt`, `safeIsSafe`, `formatNumber`, `getRatePercentage` and `wadToFixed`.
- `getCollateralRatio`, `getLiquidationPrice` and `returnPercentAmount` are inputs to the error chain and the stats panel. They are not computed.
- `parseEther` is total here. Its exception on an empty or malformed string is not modelled.
- SafeInfo.ParsedInputs: the global and RAI debt ceilings are compared at WAD precision, not as the floating-point `numeral` values the form uses. The model also reads the liquidation price and the ETH price as integers, where the form converts them with `Number`.
- The wording of messages is not modelled. Each message is a constructor, including interpolated amounts and `Math.ceil` of the debt floor.
- Waiting-modal titles, hints and statuses are not modelled. The payload keeps only the fields the core varies: text, hash, create flag.
- Transaction records omit `chainId`, `addedTime` and the full response.
- The `numeral(...).value()` conversion of fetched RAI balances is not modelled. The wallet store keeps the decimal string.
- The `timeout` pauses, `localStorage`, the 100 ms debounce, listener registration and removal, and the initial `getBlockNumber` query are not modelled. Each reported block is one call of the callback.
- `handleTransactionError` and console logging are not modelled. A failure in the account flow only switches loading off.
- The store slices the core calls but does not define are classes whose setters assign one field: connect wallet, popups, transactions, wizard and incentives.
- Rendering, translations and the remaining JSX are out of scope: the stats panel's static rows, the prices and the liquidation penalty.
- `Number(safeId)` in the saviour payload is computed outside the model and passed in.
- Steps.HandleCreateAccount: the transaction is a parameter, so the `geb.deployProxy()` request itself is not modelled.
- ApplicationUpdater.Updater.BlockNumberCallback: block numbers are natural numbers, and the JavaScript `number` range is not modelled.

## Findings

| source | as written | input that shows it | evidently intended | confidence | as-written member | corrected member |
|---|---|---|---|---|---|---|
| src/services/blockchain.ts:227-234 | The withdraw minimums are `uni × (reserve / supply) × 9 / 10`. The integer division runs first, so the per-token share is truncated to a whole number, and the minimum is 0 whenever the reserve is smaller than the liquidity supply. | uni = 1 token, reserveETH = 5 ETH, supply = 10 tokens (all WAD) gives a minimum of 0 instead of 0.45 ETH. | 90% of the pool share `uni × reserve / supply`. | not executed | Blockchain.WithdrawMinimumAsWritten, Blockchain.WithdrawMinimumCollapses | Blockchain.WithdrawMinimum, Blockchain.WithdrawMinimumDominates, Blockchain.IncentiveWithdrawRequestIntended |

`Blockchain.IncentiveWithdrawRequest` sends the minimums as written. `Blockchain.IncentiveWithdrawRequestIntended` is the same handler with the corrected minimums.
