/** The onboarding steps: connect a wallet (0), create the proxy account (1),
    create a safe (2). Step 1 waits for the account transaction to gather
    more than ten confirmations before moving on. */
module Steps {
  import opened Common
  import opened Stores

  /** `blocksSinceCheck`: the confirmation count, capped at ten. */
  function ConfirmationCount(diff: int): (r: int)
    ensures r <= 10
    ensures diff >= 10 ==> r == 10
    ensures diff < 10 ==> r == diff
    ensures diff >= 0 ==> r >= 0
  {
    if diff >= 10 then 10 else diff
  }

  /** The count shown under step 1: 0 when there is none (or it is 0), 10 for
      any count above ten, and the count itself otherwise, negative ones included. */
  function ConfirmationShown(blocksSinceCheck: Option<int>): (r: int)
    ensures r <= 10
    ensures blocksSinceCheck.None? || blocksSinceCheck.value >= 0 ==> 0 <= r
    ensures blocksSinceCheck.None? ==> r == 0
    ensures blocksSinceCheck.Some? && blocksSinceCheck.value > 10 ==> r == 10
    ensures blocksSinceCheck.Some? && blocksSinceCheck.value <= 10 ==> r == blocksSinceCheck.value
  {
    match blocksSinceCheck
    case None => 0
    case Some(b) => if b == 0 then 0 else if b > 10 then 10 else b
  }

  /** Whatever difference the last check saw, the count shown stays within 0..10
      as long as the account transaction is not ahead of the current block. */
  lemma ShownCountInRange(current: int, txBlock: int)
    requires txBlock <= current
    ensures 0 <= ConfirmationShown(Some(ConfirmationCount(current - txBlock))) <= 10
  {
  }

  /** What each step renders. */
  datatype StepContent = GettingStarted | CreateAccountStep | CreateSafeStep

  /** `returnSteps`: steps 0, 1, 2 and nothing for any other number. */
  function StepContentOf(step: int): (r: Option<StepContent>)
    ensures r == Some(GettingStarted) <==> step == 0
    ensures r == Some(CreateAccountStep) <==> step == 1
    ensures r == Some(CreateSafeStep) <==> step == 2
    ensures r.None? <==> step !in {0, 1, 2}
  {
    if step == 0 then Some(GettingStarted)
    else if step == 1 then Some(CreateAccountStep)
    else if step == 2 then Some(CreateSafeStep)
    else None
  }

  /** The two progress bars, each active or not; none are drawn at step 0. */
  datatype StepBars = StepBars(firstActive: bool, secondActive: bool)

  function StepBarsOf(step: int): (r: Option<StepBars>)
    ensures r.None? <==> step == 0
    ensures r.Some? ==> r.value.firstActive && (r.value.secondActive <==> step == 2)
  {
    if step != 0 then Some(StepBars(step != 0, step == 2)) else None
  }

  /** The waiting text shown while the account transaction is requested. */
  const CreatingAccountText: string := "Creating new account"

  /** How a `sendTransaction` for the account went: refused or failed
      (`Rejected`), or accepted with `tx`, after which waiting for it may
      still fail. */
  datatype SendOutcome = Rejected | Sent(tx: TxResponse, waitFailed: bool)

  /** The state of the steps component. */
  class StepsView {
    var blocksSinceCheck: Option<int>

    constructor ()
      ensures blocksSinceCheck == None
    {
      blocksSinceCheck := None;
    }

    /** `returnConfirmations`: a no-op unless there is a chain, a block number
        for it, an account transaction that is recorded, and step 1. Then
        loading is switched on; given the transaction's block, the capped count
        is recorded, and more than ten blocks move the onboarding to step 2. */
    method ReturnConfirmations(chainId: Option<int>, wallet: ConnectWalletModel, txs: TransactionsModel)
      modifies this, wallet
      ensures var guard := chainId.None? || chainId.value == 0
                           || chainId.value !in old(wallet.blockNumber) || old(wallet.blockNumber)[chainId.value] == 0
                           || old(wallet.ctHash) == "" || old(wallet.ctHash) !in txs.transactions
                           || old(wallet.step) != 1;
        && (guard ==> blocksSinceCheck == old(blocksSinceCheck) && wallet.Snapshot() == old(wallet.Snapshot()))
        && (!guard ==>
              var current: int := old(wallet.blockNumber)[chainId.value];
              var txBlock := txs.transactions[old(wallet.ctHash)].blockNumber;
              if txBlock.None? || txBlock.value == 0 then
                blocksSinceCheck == old(blocksSinceCheck)
                && wallet.Snapshot() == old(wallet.Snapshot()).(isStepLoading := true)
              else
                var diff: int := current - txBlock.value;
                && blocksSinceCheck == Some(ConfirmationCount(diff))
                && wallet.Snapshot() ==
                     (if diff > 10 then old(wallet.Snapshot()).(isStepLoading := false, step := 2)
                      else old(wallet.Snapshot()).(isStepLoading := true)))
    {
      if chainId.None? || chainId.value == 0 || chainId.value !in wallet.blockNumber
         || wallet.blockNumber[chainId.value] == 0 || wallet.ctHash == ""
         || wallet.ctHash !in txs.transactions || wallet.step != 1 {
        return;
      }
      wallet.SetIsStepLoading(true);
      var currentBlockNumber: int := wallet.blockNumber[chainId.value];
      var txBlockNumber := txs.transactions[wallet.ctHash].blockNumber;
      if txBlockNumber.None? || txBlockNumber.value == 0 {
        return;
      }
      var diff: int := currentBlockNumber - txBlockNumber.value;
      blocksSinceCheck := Some(ConfirmationCount(diff));
      if diff > 10 {
        wallet.SetIsStepLoading(false);
        wallet.SetStep(2);
      }
    }
  }

  /** `handleCreateAccount`: returns false without an account, a library or a
      chain. Otherwise it shows the waiting modal, and on an accepted
      transaction records its hash and the transaction and shows it as
      submitted; a refusal, or a failed wait, switches loading off again. */
  method HandleCreateAccount(account: Option<string>, hasLibrary: bool, chainId: Option<int>,
                             outcome: SendOutcome,
                             wallet: ConnectWalletModel, popups: PopupsModel, txs: TransactionsModel)
    returns (started: bool)
    modifies wallet, popups, txs
    ensures started <==> account.Some? && account.value != "" && hasLibrary && chainId.Some? && chainId.value != 0
    ensures !started ==>
      wallet.Snapshot() == old(wallet.Snapshot()) && popups.Snapshot() == old(popups.Snapshot())
      && txs.transactions == old(txs.transactions)
    ensures started && outcome.Rejected? ==>
      && wallet.Snapshot() == old(wallet.Snapshot()).(isStepLoading := false)
      && popups.Snapshot() == old(popups.Snapshot()).(isWaitingModalOpen := true,
           waitingPayload := Some(WaitingForConfirmation(CreatingAccountText)))
      && txs.transactions == old(txs.transactions)
    ensures started && outcome.Sent? ==>
      var tx := outcome.tx;
      var bn := if chainId.value in old(wallet.blockNumber) then Some(old(wallet.blockNumber)[chainId.value]) else None;
      && wallet.Snapshot() == old(wallet.Snapshot()).(isStepLoading := !outcome.waitFailed, ctHash := tx.hash)
      && popups.Snapshot() == old(popups.Snapshot()).(isWaitingModalOpen := true,
           waitingPayload := Some(TransactionSubmitted(Some(tx.hash), false)))
      && txs.transactions == old(txs.transactions)[tx.hash := TxRecord(CreatingAccount, tx.from, bn)]
  {
    if account.None? || account.value == "" || !hasLibrary || chainId.None? || chainId.value == 0 {
      return false;
    }
    wallet.SetIsStepLoading(true);
    popups.SetIsWaitingModalOpen(true);
    popups.SetWaitingPayload(WaitingForConfirmation(CreatingAccountText));
    match outcome {
      case Rejected =>
        wallet.SetIsStepLoading(false);
      case Sent(tx, waitFailed) =>
        wallet.SetCtHash(tx.hash);
        var bn := if chainId.value in wallet.blockNumber then Some(wallet.blockNumber[chainId.value]) else None;
        txs.AddTransaction(tx.hash, TxRecord(CreatingAccount, tx.from, bn));
        popups.SetWaitingPayload(TransactionSubmitted(Some(tx.hash), false));
        if waitFailed {
          wallet.SetIsStepLoading(false);
        }
    }
    return true;
  }
}
