/** The saviour confirmation step: closing and going back reset the saviour
    fields, and confirming picks exactly one of three saviour calls from the
    values shown when the button was pressed. The calls themselves (and the
    transactions they send) are not modelled; the chosen call is the result. */
module SaviourTransactions {
  import opened Common
  import opened Stores
  import opened SafeStore

  datatype SaviourFields = SaviourFields(amount: string, targetedCRatio: int, isSaviourDeposit: bool, isMaxWithdraw: bool)

  /** The saviour fields the safe store holds beside the declared ones. */
  class SaviourStore {
    var amount: string
    var targetedCRatio: int
    var isSaviourDeposit: bool
    var isMaxWithdraw: bool

    function Snapshot(): SaviourFields
      reads this
    {
      SaviourFields(amount, targetedCRatio, isSaviourDeposit, isMaxWithdraw)
    }

    method SetAmount(v: string)
      modifies this
      ensures Snapshot() == old(Snapshot()).(amount := v)
    {
      amount := v;
    }

    method SetTargetedCRatio(v: int)
      modifies this
      ensures Snapshot() == old(Snapshot()).(targetedCRatio := v)
    {
      targetedCRatio := v;
    }

    method SetIsSaviourDeposit(v: bool)
      modifies this
      ensures Snapshot() == old(Snapshot()).(isSaviourDeposit := v)
    {
      isSaviourDeposit := v;
    }

    method SetIsMaxWithdraw(v: bool)
      modifies this
      ensures Snapshot() == old(Snapshot()).(isMaxWithdraw := v)
    {
      isMaxWithdraw := v;
    }
  }

  /** The saviour fields after a close: no amount, ratio 0, deposit mode, no max withdraw. */
  const ClosedSaviourFields: SaviourFields := SaviourFields("", 0, true, false)

  /** What `useSaviourData` reports for the safe; absent when it reports nothing. */
  datatype SaviourData = SaviourData(hasSaviour: bool, saviourRescueRatio: int)

  /** The payload every saviour call receives. */
  datatype SaviourPayload = SaviourPayload(
    safeId: int,
    safeHandler: string,
    amount: string,
    targetedCRatio: int,
    isTargetedCRatioChanged: bool)

  /** The three saviour calls. */
  datatype SaviourCall =
    | ChangeTargetedCRatio(payload: SaviourPayload)
    | SaviourDeposit(payload: SaviourPayload)
    | SaviourWithdraw(payload: SaviourPayload, isMaxWithdraw: bool)

  /** The payload built from the values on screen. */
  function PayloadOf(safeId: int, safeHandler: string, f: SaviourFields, d: SaviourData): (p: SaviourPayload)
    ensures p.isTargetedCRatioChanged <==> f.targetedCRatio != d.saviourRescueRatio
    ensures p.amount == f.amount && p.targetedCRatio == f.targetedCRatio
    ensures p.safeId == safeId && p.safeHandler == safeHandler
  {
    SaviourPayload(safeId, safeHandler, f.amount, f.targetedCRatio, f.targetedCRatio != d.saviourRescueRatio)
  }

  /** The call `handleConfirm` makes: a ratio change for a safe that already
      has a saviour when no amount is typed and the ratio differs; otherwise a
      deposit in deposit mode; otherwise a withdrawal carrying the max flag. */
  function ChooseSaviourCall(f: SaviourFields, d: SaviourData, p: SaviourPayload): (c: SaviourCall)
    ensures c.ChangeTargetedCRatio? <==>
      d.hasSaviour && f.amount == "" && f.targetedCRatio != d.saviourRescueRatio
    ensures c.SaviourDeposit? <==>
      !(d.hasSaviour && f.amount == "" && f.targetedCRatio != d.saviourRescueRatio) && f.isSaviourDeposit
    ensures c.SaviourWithdraw? <==>
      !(d.hasSaviour && f.amount == "" && f.targetedCRatio != d.saviourRescueRatio) && !f.isSaviourDeposit
    ensures c.payload == p
    ensures c.SaviourWithdraw? ==> c.isMaxWithdraw == f.isMaxWithdraw
  {
    if d.hasSaviour && f.amount == "" && f.targetedCRatio != d.saviourRescueRatio then ChangeTargetedCRatio(p)
    else if f.isSaviourDeposit then SaviourDeposit(p)
    else SaviourWithdraw(p, f.isMaxWithdraw)
  }

  /** The waiting text names the kind of saviour transaction. */
  function WaitingText(isSaviourDeposit: bool): string {
    if isSaviourDeposit then "Safe Saviour Deposit" else "Safe Saviour Withdraw"
  }

  /** `handleBack`: only the operation goes back to 0. */
  method HandleBack(safe: SafeModel)
    modifies safe
    ensures safe.Snapshot() == old(safe.Snapshot()).(operation := 0)
  {
    safe.SetOperation(0);
  }

  /** `handleClose`: empties the amount, returns to operation 0 and ratio 0,
      closes the saviour modal, and goes back to deposit mode without max. */
  method HandleClose(safe: SafeModel, saviour: SaviourStore, popups: PopupsModel)
    modifies safe, saviour, popups
    ensures safe.Snapshot() == old(safe.Snapshot()).(operation := 0)
    ensures saviour.Snapshot() == ClosedSaviourFields
    ensures popups.Snapshot() == old(popups.Snapshot()).(isSaviourModalOpen := false)
  {
    saviour.SetAmount("");
    safe.SetOperation(0);
    saviour.SetTargetedCRatio(0);
    popups.SetIsSaviourModalOpen(false);
    saviour.SetIsMaxWithdraw(false);
    saviour.SetIsSaviourDeposit(true);
  }

  /** `handleConfirm`: nothing without an account, a library and saviour data.
      Otherwise the state is closed first, the waiting modal opens, and the
      chosen call is made with the values that were on screen before the
      close. */
  method HandleConfirm(account: Option<string>, hasLibrary: bool, saviourData: Option<SaviourData>,
                       safeId: int, safeHandler: string,
                       safe: SafeModel, saviour: SaviourStore, popups: PopupsModel)
    returns (call: Option<SaviourCall>)
    modifies safe, saviour, popups
    ensures account.None? || account.value == "" || !hasLibrary || saviourData.None? ==>
      call.None? && safe.Snapshot() == old(safe.Snapshot()) && saviour.Snapshot() == old(saviour.Snapshot())
      && popups.Snapshot() == old(popups.Snapshot())
    ensures account.Some? && account.value != "" && hasLibrary && saviourData.Some? ==>
      var f := old(saviour.Snapshot());
      && call == Some(ChooseSaviourCall(f, saviourData.value, PayloadOf(safeId, safeHandler, f, saviourData.value)))
      && safe.Snapshot() == old(safe.Snapshot()).(operation := 0)
      && saviour.Snapshot() == ClosedSaviourFields
      && popups.Snapshot() == old(popups.Snapshot()).(isSaviourModalOpen := false, isWaitingModalOpen := true,
           waitingPayload := Some(WaitingForConfirmation(WaitingText(f.isSaviourDeposit))))
  {
    if account.None? || account.value == "" || !hasLibrary || saviourData.None? {
      return None;
    }
    var shown := saviour.Snapshot();
    HandleClose(safe, saviour, popups);
    popups.SetIsWaitingModalOpen(true);
    popups.SetWaitingPayload(WaitingForConfirmation(WaitingText(shown.isSaviourDeposit)));
    var payload := PayloadOf(safeId, safeHandler, shown, saviourData.value);
    call := Some(ChooseSaviourCall(shown, saviourData.value, payload));
  }
}
