/** The store slices the core reads and writes besides the safe model:
    wallet connection, popups, transactions, the create-safe wizard and the
    incentives form. Their own definitions are not part of this model; each
    setter is taken to assign its one field, which is all the core relies on. */
module Stores {
  import opened Common

  /** What the waiting modal shows. */
  datatype WaitingPayload =
    | WaitingForConfirmation(text: string)
    | TransactionSubmitted(hash: Option<string>, isCreate: bool)
    | FetchingUserSafes

  /** Summaries the core attaches to the transactions it records. */
  datatype TxSummary = CreatingSafe | ModifyingSafe | CollectingEth | CreatingAccount

  datatype TxRecord = TxRecord(summary: TxSummary, from: string, blockNumber: Option<nat>)

  /** A transaction response handed back by the wallet. */
  datatype TxResponse = TxResponse(hash: string, from: string, blockNumber: Option<nat>)

  datatype WalletState = WalletState(
    step: int,
    isStepLoading: bool,
    ctHash: string,
    proxyAddress: string,
    coinAllowance: string,
    raiBalance: map<int, string>,
    blockNumber: map<int, nat>)

  /** `connectWalletModel`: onboarding step, loading flag, account-creation hash,
      proxy, allowance, balances and the latest block per chain. */
  class ConnectWalletModel {
    var step: int
    var isStepLoading: bool
    var ctHash: string
    var proxyAddress: string
    var coinAllowance: string
    var raiBalance: map<int, string>
    var blockNumber: map<int, nat>

    function Snapshot(): (s: WalletState)
      reads this
    {
      WalletState(step, isStepLoading, ctHash, proxyAddress, coinAllowance, raiBalance, blockNumber)
    }

    method SetStep(v: int)
      modifies this
      ensures Snapshot() == old(Snapshot()).(step := v)
    {
      step := v;
    }

    method SetIsStepLoading(v: bool)
      modifies this
      ensures Snapshot() == old(Snapshot()).(isStepLoading := v)
    {
      isStepLoading := v;
    }

    method SetCtHash(v: string)
      modifies this
      ensures Snapshot() == old(Snapshot()).(ctHash := v)
    {
      ctHash := v;
    }

    method SetProxyAddress(v: string)
      modifies this
      ensures Snapshot() == old(Snapshot()).(proxyAddress := v)
    {
      proxyAddress := v;
    }

    method SetCoinAllowance(v: string)
      modifies this
      ensures Snapshot() == old(Snapshot()).(coinAllowance := v)
    {
      coinAllowance := v;
    }

    method UpdateRaiBalance(chainId: int, balance: string)
      modifies this
      ensures Snapshot() == old(Snapshot()).(raiBalance := old(raiBalance)[chainId := balance])
    {
      raiBalance := raiBalance[chainId := balance];
    }

    method UpdateBlockNumber(chainId: int, bn: nat)
      modifies this
      ensures Snapshot() == old(Snapshot()).(blockNumber := old(blockNumber)[chainId := bn])
    {
      blockNumber := blockNumber[chainId := bn];
    }
  }

  datatype PopupsState = PopupsState(
    isWaitingModalOpen: bool,
    waitingPayload: Option<WaitingPayload>,
    isSaviourModalOpen: bool,
    isCreateAccountModalOpen: bool,
    isIncentivesModalOpen: bool)

  /** `popupsModel`: the modal flags and the waiting modal's payload. */
  class PopupsModel {
    var isWaitingModalOpen: bool
    var waitingPayload: Option<WaitingPayload>
    var isSaviourModalOpen: bool
    var isCreateAccountModalOpen: bool
    var isIncentivesModalOpen: bool

    function Snapshot(): (s: PopupsState)
      reads this
    {
      PopupsState(isWaitingModalOpen, waitingPayload, isSaviourModalOpen,
                  isCreateAccountModalOpen, isIncentivesModalOpen)
    }

    method SetIsWaitingModalOpen(v: bool)
      modifies this
      ensures Snapshot() == old(Snapshot()).(isWaitingModalOpen := v)
    {
      isWaitingModalOpen := v;
    }

    method SetWaitingPayload(p: WaitingPayload)
      modifies this
      ensures Snapshot() == old(Snapshot()).(waitingPayload := Some(p))
    {
      waitingPayload := Some(p);
    }

    method SetIsSaviourModalOpen(v: bool)
      modifies this
      ensures Snapshot() == old(Snapshot()).(isSaviourModalOpen := v)
    {
      isSaviourModalOpen := v;
    }

    method SetIsCreateAccountModalOpen(v: bool)
      modifies this
      ensures Snapshot() == old(Snapshot()).(isCreateAccountModalOpen := v)
    {
      isCreateAccountModalOpen := v;
    }

    method SetIsIncentivesModalOpen(v: bool)
      modifies this
      ensures Snapshot() == old(Snapshot()).(isIncentivesModalOpen := v)
    {
      isIncentivesModalOpen := v;
    }
  }

  /** `transactionsModel`: recorded transactions keyed by hash. */
  class TransactionsModel {
    var transactions: map<string, TxRecord>

    method AddTransaction(hash: string, record: TxRecord)
      modifies this
      ensures transactions == old(transactions)[hash := record]
    {
      transactions := transactions[hash := record];
    }
  }

  /** The two amounts of the create-safe wizard (`CreateSafeType`). */
  datatype CreateSafeValues = CreateSafeValues(depositedETH: string, borrowedRAI: string)

  const EmptyCreateSafeValues: CreateSafeValues := CreateSafeValues("", "")

  datatype WizardState = WizardState(
    stage: int,
    isUniSwapPoolChecked: bool,
    createSafeDefault: CreateSafeValues,
    uniSwapPool: CreateSafeValues)

  /** `walletModel`: the create-safe wizard's stage and stored values. */
  class WalletModel {
    var stage: int
    var isUniSwapPoolChecked: bool
    var createSafeDefault: CreateSafeValues
    var uniSwapPool: CreateSafeValues

    function Snapshot(): (s: WizardState)
      reads this
    {
      WizardState(stage, isUniSwapPoolChecked, createSafeDefault, uniSwapPool)
    }

    method SetStage(v: int)
      modifies this
      ensures Snapshot() == old(Snapshot()).(stage := v)
    {
      stage := v;
    }

    method SetIsUniSwapPoolChecked(v: bool)
      modifies this
      ensures Snapshot() == old(Snapshot()).(isUniSwapPoolChecked := v)
    {
      isUniSwapPoolChecked := v;
    }

    method SetCreateSafeDefault(v: CreateSafeValues)
      modifies this
      ensures Snapshot() == old(Snapshot()).(createSafeDefault := v)
    {
      createSafeDefault := v;
    }

    method SetUniSwapPool(v: CreateSafeValues)
      modifies this
      ensures Snapshot() == old(Snapshot()).(uniSwapPool := v)
    {
      uniSwapPool := v;
    }
  }

  /** The deposit amounts mirrored into the incentives store (`IIncentivesFields`). */
  datatype IncentivesFields = IncentivesFields(raiAmount: string, ethAmount: string)

  datatype IncentivesState = IncentivesState(
    operation: int,
    incentivesFields: IncentivesFields,
    uniPoolAmount: string)

  /** `incentivesModel`: the operation number and the mirrored form values. */
  class IncentivesModel {
    var operation: int
    var incentivesFields: IncentivesFields
    var uniPoolAmount: string

    function Snapshot(): (s: IncentivesState)
      reads this
    {
      IncentivesState(operation, incentivesFields, uniPoolAmount)
    }

    method SetOperation(v: int)
      modifies this
      ensures Snapshot() == old(Snapshot()).(operation := v)
    {
      operation := v;
    }

    method SetIncentivesFields(v: IncentivesFields)
      modifies this
      ensures Snapshot() == old(Snapshot()).(incentivesFields := v)
    {
      incentivesFields := v;
    }

    method SetUniPoolAmount(v: string)
      modifies this
      ensures Snapshot() == old(Snapshot()).(uniPoolAmount := v)
    {
      uniPoolAmount := v;
    }
  }
}
