/** The create-safe wizard body: the default amounts, the optional Uniswap
    pool amounts, and the stage each button moves the wizard to. The same
    body serves the first page (`isChecked` false) and the pool page
    (`isChecked` true). */
module CreateSafeBody {
  import opened Common
  import opened Stores

  /** The wizard stage after the first page: the pool page (1) when the pool
      box is ticked, otherwise the review (2). */
  function StageAfterDefaults(checkUniSwapPool: bool): (stage: int)
    ensures stage == 1 <==> checkUniSwapPool
    ensures stage == 2 <==> !checkUniSwapPool
  {
    if checkUniSwapPool then 1 else 2
  }

  /** The labels of the submit button. */
  datatype SubmitLabel = UniswapPoolLabel | ReviewTransactionLabel

  function SubmitLabelOf(checkUniSwapPool: bool, isChecked: bool): (r: SubmitLabel)
    ensures r == UniswapPoolLabel <==> checkUniSwapPool && !isChecked
    ensures r == ReviewTransactionLabel <==> !checkUniSwapPool || isChecked
  {
    if checkUniSwapPool && !isChecked then UniswapPoolLabel else ReviewTransactionLabel
  }

  /** The body's own state besides the page it shows. */
  datatype BodyState = BodyState(checkUniSwapPool: bool, defaultSafe: CreateSafeValues, uniSwapVal: CreateSafeValues)

  class CreateSafeForm {
    const isChecked: bool
    var checkUniSwapPool: bool
    var defaultSafe: CreateSafeValues
    var uniSwapVal: CreateSafeValues

    function Snapshot(): BodyState
      reads this
    {
      BodyState(checkUniSwapPool, defaultSafe, uniSwapVal)
    }

    /** The box starts as the page's `isChecked`, both value records empty. */
    constructor (isChecked: bool)
      ensures this.isChecked == isChecked
      ensures Snapshot() == BodyState(isChecked, EmptyCreateSafeValues, EmptyCreateSafeValues)
    {
      this.isChecked := isChecked;
      checkUniSwapPool := isChecked;
      defaultSafe := EmptyCreateSafeValues;
      uniSwapVal := EmptyCreateSafeValues;
    }

    /** `submitDefaultValues`: stores the default amounts and the box, then
        moves to the pool page or the review. */
    method SubmitDefaultValues(wallet: WalletModel)
      modifies wallet
      ensures wallet.Snapshot() == old(wallet.Snapshot()).(createSafeDefault := defaultSafe,
        isUniSwapPoolChecked := checkUniSwapPool, stage := StageAfterDefaults(checkUniSwapPool))
    {
      wallet.SetCreateSafeDefault(defaultSafe);
      wallet.SetIsUniSwapPoolChecked(checkUniSwapPool);
      if checkUniSwapPool {
        wallet.SetStage(1);
      } else {
        wallet.SetStage(2);
      }
    }

    /** `submitUniSwapPool`: stores the pool amounts and moves to the review. */
    method SubmitUniSwapPool(wallet: WalletModel)
      modifies wallet
      ensures wallet.Snapshot() == old(wallet.Snapshot()).(uniSwapPool := uniSwapVal, stage := 2)
    {
      wallet.SetUniSwapPool(uniSwapVal);
      wallet.SetStage(2);
    }

    /** The submit button: the pool page submits the pool amounts, the first
        page the defaults. */
    method Submit(wallet: WalletModel)
      modifies wallet
      ensures isChecked ==> wallet.Snapshot() == old(wallet.Snapshot()).(uniSwapPool := uniSwapVal, stage := 2)
      ensures !isChecked ==> wallet.Snapshot() == old(wallet.Snapshot()).(createSafeDefault := defaultSafe,
        isUniSwapPoolChecked := checkUniSwapPool, stage := StageAfterDefaults(checkUniSwapPool))
    {
      if isChecked {
        SubmitUniSwapPool(wallet);
      } else {
        SubmitDefaultValues(wallet);
      }
    }

    /** `handleCancel`: the pool page only goes back to stage 0; the first page
        also unticks the pool, closes the modal and empties all four records. */
    method HandleCancel(wallet: WalletModel, popups: PopupsModel)
      modifies this, wallet, popups
      ensures isChecked ==>
        && wallet.Snapshot() == old(wallet.Snapshot()).(stage := 0)
        && Snapshot() == old(Snapshot()) && popups.Snapshot() == old(popups.Snapshot())
      ensures !isChecked ==>
        && wallet.Snapshot() == WizardState(0, false, EmptyCreateSafeValues, EmptyCreateSafeValues)
        && popups.Snapshot() == old(popups.Snapshot()).(isCreateAccountModalOpen := false)
        && Snapshot() == old(Snapshot()).(defaultSafe := EmptyCreateSafeValues, uniSwapVal := EmptyCreateSafeValues)
    {
      if isChecked {
        wallet.SetStage(0);
      } else {
        wallet.SetIsUniSwapPoolChecked(false);
        wallet.SetStage(0);
        popups.SetIsCreateAccountModalOpen(false);
        wallet.SetUniSwapPool(EmptyCreateSafeValues);
        wallet.SetCreateSafeDefault(EmptyCreateSafeValues);
        uniSwapVal := EmptyCreateSafeValues;
        defaultSafe := EmptyCreateSafeValues;
      }
    }

    /** Typing the ETH deposit keeps the RAI amount. */
    method EditDefaultEth(val: string)
      modifies this
      ensures Snapshot() == old(Snapshot()).(defaultSafe := old(defaultSafe).(depositedETH := val))
      ensures defaultSafe.borrowedRAI == old(defaultSafe.borrowedRAI)
    {
      defaultSafe := defaultSafe.(depositedETH := val);
    }

    /** Typing the RAI to borrow keeps the ETH amount. */
    method EditDefaultRai(val: string)
      modifies this
      ensures Snapshot() == old(Snapshot()).(defaultSafe := old(defaultSafe).(borrowedRAI := val))
      ensures defaultSafe.depositedETH == old(defaultSafe.depositedETH)
    {
      defaultSafe := defaultSafe.(borrowedRAI := val);
    }

    /** Typing the ETH for the pool keeps the pool's RAI amount. */
    method EditUniSwapEth(val: string)
      modifies this
      ensures Snapshot() == old(Snapshot()).(uniSwapVal := old(uniSwapVal).(depositedETH := val))
      ensures uniSwapVal.borrowedRAI == old(uniSwapVal.borrowedRAI)
    {
      uniSwapVal := uniSwapVal.(depositedETH := val);
    }

    /** Typing the RAI for the pool keeps the pool's ETH amount. */
    method EditUniSwapRai(val: string)
      modifies this
      ensures Snapshot() == old(Snapshot()).(uniSwapVal := old(uniSwapVal).(borrowedRAI := val))
      ensures uniSwapVal.depositedETH == old(uniSwapVal.depositedETH)
    {
      uniSwapVal := uniSwapVal.(borrowedRAI := val);
    }

    /** Ticking the pool box updates the body and the store. */
    method ToggleUniSwapPool(state: bool, wallet: WalletModel)
      modifies this, wallet
      ensures Snapshot() == old(Snapshot()).(checkUniSwapPool := state)
      ensures wallet.Snapshot() == old(wallet.Snapshot()).(isUniSwapPoolChecked := state)
    {
      checkUniSwapPool := state;
      wallet.SetIsUniSwapPoolChecked(state);
    }

    /** The effect that copies the stored records into the body. */
    method SyncFromStore(wallet: WalletModel)
      modifies this
      ensures Snapshot() == old(Snapshot()).(defaultSafe := wallet.createSafeDefault, uniSwapVal := wallet.uniSwapPool)
    {
      defaultSafe := wallet.createSafeDefault;
      uniSwapVal := wallet.uniSwapPool;
    }
  }
}
