/** The safe store (`safeModel`): a record of fields, one setter per field,
    and the thunks whose effect on the store depends only on whether the
    transaction or the fetch produced a result. The result of each foreign
    call (wallet transaction, indexer query) is a parameter. */
module SafeStore {
  import opened Common
  import opened Stores

  /** One entry of a safe's history (`ISafeHistory`); its content is not inspected. */
  datatype SafeHistory = SafeHistory(id: string)

  /** What `fetchUserSafes` returns from the indexer. */
  datatype FetchedSafes = FetchedSafes(
    userSafes: seq<Safe>,
    liquidationData: LiquidationData,
    availableRAI: string)

  /** The proxy part of `fetchSafeById`'s answer; `coinAllowance` is the allowance's `amount`. */
  datatype ProxyData = ProxyData(address: string, coinAllowance: Option<string>)

  /** What `fetchSafeById` returns from the indexer. */
  datatype FetchedSafe = FetchedSafe(
    safe: seq<Safe>,
    safeHistory: seq<SafeHistory>,
    liquidationData: LiquidationData,
    erc20Balance: string,
    proxyData: Option<ProxyData>)

  datatype SafeModelState = SafeModelState(
    list: seq<Safe>,
    safeCreated: bool,
    singleSafe: Option<Safe>,
    operation: int,
    totalEth: string,
    totalRAI: string,
    isES: bool,
    isUniSwapPoolChecked: bool,
    stage: int,
    isSuccessfulTx: bool,
    safeData: SafeData,
    liquidationData: LiquidationData,
    uniSwapPool: SafeData,
    historyList: seq<SafeHistory>)

  const InitialLiquidationData: LiquidationData :=
    LiquidationData(
      "0", CurrentPrice("0", "", ""), "0", "0", "0",
      "1", "1", "0", "0", "0", "0", "0", "0")

  /** The store's declared initial value. */
  const InitialState: SafeModelState :=
    SafeModelState(
      [], false, None, 0, "0.00", "0.00", true, true, 0, true,
      DefaultSafeState, InitialLiquidationData, DefaultSafeState, [])

  /** The summary recorded for a deposit/borrow transaction. */
  function DepositSummary(safeId: string): (r: TxSummary)
    ensures r == ModifyingSafe <==> safeId != ""
    ensures r == CreatingSafe <==> safeId == ""
  {
    if safeId != "" then ModifyingSafe else CreatingSafe
  }

  /** The waiting-modal payload shown after a deposit/borrow transaction is sent. */
  function DepositPayload(safeId: string, hash: string): (p: WaitingPayload)
    ensures p.TransactionSubmitted?
    ensures p.isCreate <==> safeId == ""
    ensures p.hash.Some? <==> safeId != ""
    ensures p.hash.Some? ==> p.hash.value == hash
  {
    if safeId == "" then TransactionSubmitted(None, true) else TransactionSubmitted(Some(hash), false)
  }

  /** The wallet slice after `fetchSafeById` received `r`: the balance for the
      configured chain, the proxy address when a non-empty one came back, and
      the allowance's amount, or '' when the proxy data has no allowance. */
  function WalletAfterFetch(w: WalletState, r: FetchedSafe, networkId: int): (w': WalletState)
    ensures w'.raiBalance == w.raiBalance[networkId := r.erc20Balance]
    ensures r.proxyData.None? ==> w'.proxyAddress == w.proxyAddress && w'.coinAllowance == w.coinAllowance
    ensures r.proxyData.Some? ==>
      && w'.proxyAddress == (if r.proxyData.value.address != "" then r.proxyData.value.address else w.proxyAddress)
      && w'.coinAllowance == (if r.proxyData.value.coinAllowance.Some? then r.proxyData.value.coinAllowance.value else "")
    ensures w'.step == w.step && w'.isStepLoading == w.isStepLoading && w'.ctHash == w.ctHash
    ensures w'.blockNumber == w.blockNumber
  {
    var w1 := w.(raiBalance := w.raiBalance[networkId := r.erc20Balance]);
    match r.proxyData
    case None => w1
    case Some(p) =>
      w1.(proxyAddress := if p.address != "" then p.address else w.proxyAddress,
          coinAllowance := if p.coinAllowance.Some? then p.coinAllowance.value else "")
  }

  class SafeModel {
    var list: seq<Safe>
    var safeCreated: bool
    var singleSafe: Option<Safe>
    var operation: int
    var totalEth: string
    var totalRAI: string
    var isES: bool
    var isUniSwapPoolChecked: bool
    var stage: int
    var isSuccessfulTx: bool
    var safeData: SafeData
    var liquidationData: LiquidationData
    var uniSwapPool: SafeData
    var historyList: seq<SafeHistory>

    /** The whole store as one value. */
    function Snapshot(): SafeModelState
      reads this
    {
      SafeModelState(list, safeCreated, singleSafe, operation, totalEth, totalRAI, isES,
                     isUniSwapPoolChecked, stage, isSuccessfulTx, safeData, liquidationData,
                     uniSwapPool, historyList)
    }

    constructor ()
      ensures Snapshot() == InitialState
      ensures list == [] && singleSafe == None && stage == 0 && operation == 0
      ensures safeData == DefaultSafeState && uniSwapPool == DefaultSafeState && isSuccessfulTx
    {
      list, safeCreated, singleSafe, operation := [], false, None, 0;
      totalEth, totalRAI := "0.00", "0.00";
      isSuccessfulTx, isES, isUniSwapPoolChecked, stage := true, true, true, 0;
      safeData, liquidationData, uniSwapPool := DefaultSafeState, InitialLiquidationData, DefaultSafeState;
      historyList := [];
    }

    method SetIsSafeCreated(v: bool)
      modifies this
      ensures Snapshot() == old(Snapshot()).(safeCreated := v)
    {
      safeCreated := v;
    }

    method SetList(v: seq<Safe>)
      modifies this
      ensures Snapshot() == old(Snapshot()).(list := v)
    {
      list := v;
    }

    method SetSingleSafe(v: Option<Safe>)
      modifies this
      ensures Snapshot() == old(Snapshot()).(singleSafe := v)
    {
      singleSafe := v;
    }

    method SetOperation(v: int)
      modifies this
      ensures Snapshot() == old(Snapshot()).(operation := v)
    {
      operation := v;
    }

    method SetTotalEth(v: string)
      modifies this
      ensures Snapshot() == old(Snapshot()).(totalEth := v)
    {
      totalEth := v;
    }

    method SetTotalRAI(v: string)
      modifies this
      ensures Snapshot() == old(Snapshot()).(totalRAI := v)
    {
      totalRAI := v;
    }

    method SetIsES(v: bool)
      modifies this
      ensures Snapshot() == old(Snapshot()).(isES := v)
    {
      isES := v;
    }

    method SetLiquidationData(v: LiquidationData)
      modifies this
      ensures Snapshot() == old(Snapshot()).(liquidationData := v)
    {
      liquidationData := v;
    }

    method SetSafeData(v: SafeData)
      modifies this
      ensures Snapshot() == old(Snapshot()).(safeData := v)
    {
      safeData := v;
    }

    method SetUniSwapPool(v: SafeData)
      modifies this
      ensures Snapshot() == old(Snapshot()).(uniSwapPool := v)
    {
      uniSwapPool := v;
    }

    method SetIsUniSwapPoolChecked(v: bool)
      modifies this
      ensures Snapshot() == old(Snapshot()).(isUniSwapPoolChecked := v)
    {
      isUniSwapPoolChecked := v;
    }

    method SetStage(v: int)
      modifies this
      ensures Snapshot() == old(Snapshot()).(stage := v)
    {
      stage := v;
    }

    method SetSafeHistoryList(v: seq<SafeHistory>)
      modifies this
      ensures Snapshot() == old(Snapshot()).(historyList := v)
    {
      historyList := v;
    }

    method SetIsSuccessfulTx(v: bool)
      modifies this
      ensures Snapshot() == old(Snapshot()).(isSuccessfulTx := v)
    {
      isSuccessfulTx := v;
    }

    /** `depositAndBorrow`: `response` is what the deposit/borrow handler
        returned (None for `false`). */
    method DepositAndBorrow(response: Option<TxResponse>, safeId: string,
                            wallet: ConnectWalletModel, popups: PopupsModel, txs: TransactionsModel)
      modifies this, wallet, popups, txs
      ensures response.Some? ==>
        && Snapshot() == old(Snapshot()).(stage := 0, uniSwapPool := DefaultSafeState, safeData := DefaultSafeState)
        && txs.transactions == old(txs.transactions)[response.value.hash :=
             TxRecord(DepositSummary(safeId), response.value.from, response.value.blockNumber)]
        && popups.Snapshot() == old(popups.Snapshot()).(isWaitingModalOpen := true,
             waitingPayload := Some(DepositPayload(safeId, response.value.hash)))
        && wallet.Snapshot() == old(wallet.Snapshot())
      ensures response.None? ==>
        && Snapshot() == old(Snapshot())
        && wallet.Snapshot() == old(wallet.Snapshot()).(isStepLoading := false, step := 2)
        && popups.Snapshot() == old(popups.Snapshot())
        && txs.transactions == old(txs.transactions)
    {
      match response {
        case Some(tx) =>
          txs.AddTransaction(tx.hash, TxRecord(DepositSummary(safeId), tx.from, tx.blockNumber));
          popups.SetIsWaitingModalOpen(true);
          popups.SetWaitingPayload(DepositPayload(safeId, tx.hash));
          SetStage(0);
          SetUniSwapPool(DefaultSafeState);
          SetSafeData(DefaultSafeState);
        case None =>
          wallet.SetIsStepLoading(false);
          wallet.SetStep(2);
      }
    }

    /** `repayAndWithdraw`: the same three resets on success, nothing on failure. */
    method RepayAndWithdraw(response: Option<TxResponse>,
                            popups: PopupsModel, txs: TransactionsModel)
      modifies this, popups, txs
      ensures response.Some? ==>
        && Snapshot() == old(Snapshot()).(stage := 0, uniSwapPool := DefaultSafeState, safeData := DefaultSafeState)
        && txs.transactions == old(txs.transactions)[response.value.hash :=
             TxRecord(ModifyingSafe, response.value.from, response.value.blockNumber)]
        && popups.Snapshot() == old(popups.Snapshot()).(isWaitingModalOpen := true,
             waitingPayload := Some(TransactionSubmitted(Some(response.value.hash), false)))
      ensures response.None? ==>
        Snapshot() == old(Snapshot()) && popups.Snapshot() == old(popups.Snapshot())
        && txs.transactions == old(txs.transactions)
    {
      if response.Some? {
        var tx := response.value;
        txs.AddTransaction(tx.hash, TxRecord(ModifyingSafe, tx.from, tx.blockNumber));
        popups.SetIsWaitingModalOpen(true);
        popups.SetWaitingPayload(TransactionSubmitted(Some(tx.hash), false));
        SetStage(0);
        SetUniSwapPool(DefaultSafeState);
        SetSafeData(DefaultSafeState);
      }
    }

    /** `collectETH`: records the transaction and opens the waiting modal; the
        safe store itself is never touched. */
    method CollectETH(response: Option<TxResponse>, popups: PopupsModel, txs: TransactionsModel)
      modifies popups, txs
      ensures response.Some? ==>
        && txs.transactions == old(txs.transactions)[response.value.hash :=
             TxRecord(CollectingEth, response.value.from, response.value.blockNumber)]
        && popups.Snapshot() == old(popups.Snapshot()).(isWaitingModalOpen := true,
             waitingPayload := Some(TransactionSubmitted(Some(response.value.hash), false)))
      ensures response.None? ==>
        popups.Snapshot() == old(popups.Snapshot()) && txs.transactions == old(txs.transactions)
    {
      if response.Some? {
        var tx := response.value;
        txs.AddTransaction(tx.hash, TxRecord(CollectingEth, tx.from, tx.blockNumber));
        popups.SetIsWaitingModalOpen(true);
        popups.SetWaitingPayload(TransactionSubmitted(Some(tx.hash), false));
      }
    }

    /** `fetchUserSafes`: `fetched` is the indexer's answer (None when it gave
        nothing); `networkId` is the configured chain id. */
    method FetchUserSafes(fetched: Option<FetchedSafes>, networkId: int,
                          wallet: ConnectWalletModel, popups: PopupsModel)
      modifies this, wallet, popups
      ensures fetched.None? ==>
        Snapshot() == old(Snapshot()) && wallet.Snapshot() == old(wallet.Snapshot())
        && popups.Snapshot() == old(popups.Snapshot())
      ensures fetched.Some? ==>
        var f := fetched.value;
        && Snapshot() == old(Snapshot()).(list := f.userSafes, liquidationData := f.liquidationData,
             safeCreated := |f.userSafes| > 0)
        && wallet.step == (if |f.userSafes| > 0 then 2 else old(wallet.step))
        && wallet.isStepLoading ==
             (if |f.userSafes| == 0 && !old(isSuccessfulTx) then false else old(wallet.isStepLoading))
        && wallet.raiBalance ==
             (if f.availableRAI != "" && networkId != 0
              then old(wallet.raiBalance)[networkId := f.availableRAI] else old(wallet.raiBalance))
        && wallet.Snapshot().(step := 0, isStepLoading := false, raiBalance := map[])
           == old(wallet.Snapshot()).(step := 0, isStepLoading := false, raiBalance := map[])
        && popups.Snapshot() ==
             (if |f.userSafes| == 0 && old(isSuccessfulTx)
              then old(popups.Snapshot()).(waitingPayload := Some(FetchingUserSafes))
              else old(popups.Snapshot()))
    {
      if fetched.Some? {
        var f := fetched.value;
        var successfulTx := isSuccessfulTx;
        SetList(f.userSafes);
        if |f.userSafes| > 0 {
          SetIsSafeCreated(true);
          wallet.SetStep(2);
        } else if |f.userSafes| == 0 && !successfulTx {
          SetIsSafeCreated(false);
          wallet.SetIsStepLoading(false);
        } else {
          popups.SetWaitingPayload(FetchingUserSafes);
          SetIsSafeCreated(false);
        }
        SetLiquidationData(f.liquidationData);
        if f.availableRAI != "" && networkId != 0 {
          wallet.UpdateRaiBalance(networkId, f.availableRAI);
        }
      }
    }

    /** `fetchSafeById`: `res.safe[0]` is `undefined` when the list is empty,
        which the model writes as None. */
    method FetchSafeById(res: Option<FetchedSafe>, networkId: int, wallet: ConnectWalletModel)
      modifies this, wallet
      ensures res.None? ==>
        Snapshot() == old(Snapshot()) && wallet.Snapshot() == old(wallet.Snapshot())
      ensures res.Some? ==>
        var r := res.value;
        && Snapshot() == old(Snapshot()).(
             singleSafe := if |r.safe| > 0 then Some(r.safe[0]) else None,
             historyList := if |r.safeHistory| > 0 then r.safeHistory else old(historyList),
             liquidationData := r.liquidationData)
        && wallet.Snapshot() == WalletAfterFetch(old(wallet.Snapshot()), r, networkId)
    {
      if res.Some? {
        var r := res.value;
        singleSafe := if |r.safe| > 0 then Some(r.safe[0]) else None;
        if |r.safeHistory| > 0 {
          historyList := r.safeHistory;
        }
        liquidationData := r.liquidationData;
        ApplyFetchedWallet(r, networkId, wallet);
      }
    }

    /** The connect-wallet updates of `fetchSafeById`: balance, proxy address, allowance. */
    static method ApplyFetchedWallet(r: FetchedSafe, networkId: int, wallet: ConnectWalletModel)
      modifies wallet
      ensures wallet.Snapshot() == WalletAfterFetch(old(wallet.Snapshot()), r, networkId)
    {
      wallet.UpdateRaiBalance(networkId, r.erc20Balance);
      if r.proxyData.Some? {
        var p := r.proxyData.value;
        if p.address != "" {
          wallet.SetProxyAddress(p.address);
        }
        wallet.SetCoinAllowance(if p.coinAllowance.Some? then p.coinAllowance.value else "");
      }
    }
  }
}
