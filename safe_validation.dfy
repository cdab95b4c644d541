/** The error policy of the safe edit form (`useSafeInfo`): an ordered list of
    checks, of which the first that fails supplies the one message shown.
    Amounts are WAD-scaled integers (value x 10^18). */
module SafeValidation {

  import opened Common

  /** The three modes of the safe edit form (`SafeTypes`). */
  datatype SafeType = Create | DepositBorrow | RepayWithdraw

  /** One constructor per check, named after the message it shows. */
  datatype SafeError =
    | ConnectWallet
    | CreateAccount
    | InsufficientBalance
    | BorrowExceedsAvailable
    | EnterDepositOrBorrow
    | EnterFreeOrRepay
    | UnlockExceedsAvailable
    | RepayExceedsOwed
    | ResidualRepay
    | BalanceIssue
    | BelowDebtFloor
    | TooMuchDebt
    | GlobalDebtCeiling
    | RaiDebtCeiling
    | EnterEthAmount
    | PerSafeDebtCeiling

  /** Everything the checks read. `repayPercent`, `isSafe` and
      `collateralRatio` are the results of helpers whose bodies are not part of
      this model (`returnPercentAmount`, `useSafeIsSafe`, `getCollateralRatio`). */
  datatype SafeInputs = SafeInputs(
    mode: SafeType,
    hasAccount: bool,
    hasProxy: bool,
    leftInput: nat,
    rightInput: nat,
    availableEth: nat,
    availableRai: nat,
    raiBalance: nat,
    totalDebt: nat,
    debtFloor: nat,
    isSafe: bool,
    collateralRatio: int,
    repayPercent: int,
    globalDebtCeiling: nat,
    debtCeiling: nat,
    perSafeDebtCeiling: nat)

  /** Whether check `e` fails on `v`; each mode-specific check includes its mode test. */
  predicate Fails(e: SafeError, v: SafeInputs) {
    match e
    case ConnectWallet => !v.hasAccount
    case CreateAccount => !v.hasProxy
    case InsufficientBalance => v.mode == DepositBorrow && v.leftInput > v.availableEth
    case BorrowExceedsAvailable => v.mode == DepositBorrow && v.rightInput > v.availableRai
    case EnterDepositOrBorrow => v.mode == DepositBorrow && v.leftInput == 0 && v.rightInput == 0
    case EnterFreeOrRepay => v.mode == RepayWithdraw && v.leftInput == 0 && v.rightInput == 0
    case UnlockExceedsAvailable => v.mode == RepayWithdraw && v.leftInput > v.availableEth
    case RepayExceedsOwed => v.mode == RepayWithdraw && v.rightInput > v.availableRai
    case ResidualRepay =>
      v.mode == RepayWithdraw && v.rightInput != 0 && v.rightInput < v.availableRai && v.repayPercent > 95
    case BalanceIssue => v.mode == RepayWithdraw && v.rightInput != 0 && v.rightInput > v.raiBalance
    case BelowDebtFloor => v.totalDebt != 0 && v.totalDebt < v.debtFloor
    case TooMuchDebt => !v.isSafe && v.collateralRatio >= 0
    case GlobalDebtCeiling => v.totalDebt > v.globalDebtCeiling
    case RaiDebtCeiling => v.totalDebt > v.debtCeiling
    case EnterEthAmount => v.mode == Create && v.leftInput == 0
    case PerSafeDebtCeiling => v.mode != Create && v.totalDebt >= v.perSafeDebtCeiling
  }

  /** The checks in the order the form evaluates them. */
  const RuleOrder: seq<SafeError> := [
    ConnectWallet, CreateAccount,
    InsufficientBalance, BorrowExceedsAvailable, EnterDepositOrBorrow,
    EnterFreeOrRepay, UnlockExceedsAvailable, RepayExceedsOwed, ResidualRepay, BalanceIssue,
    BelowDebtFloor, TooMuchDebt, GlobalDebtCeiling, RaiDebtCeiling,
    EnterEthAmount, PerSafeDebtCeiling]

  /** The first failing check of `rules`, if any. */
  function FirstFailure(rules: seq<SafeError>, v: SafeInputs): (r: Option<SafeError>)
    ensures r.Some? ==> Fails(r.value, v)
  {
    if rules == [] then None
    else if Fails(rules[0], v) then Some(rules[0])
    else FirstFailure(rules[1..], v)
  }

  /** The message the form shows. */
  function SafeInfoError(v: SafeInputs): Option<SafeError> {
    FirstFailure(RuleOrder, v)
  }

  /** Appending checks after a list that already failed changes nothing; otherwise
      the appended checks are consulted in order. */
  lemma {:induction false} FirstFailureAppend(s: seq<SafeError>, t: seq<SafeError>, v: SafeInputs)
    ensures FirstFailure(s + t, v) ==
      (if FirstFailure(s, v).Some? then FirstFailure(s, v) else FirstFailure(t, v))
  {
    if s == [] {
      assert s + t == t;
    } else {
      assert (s + t)[0] == s[0];
      assert (s + t)[1..] == s[1..] + t;
      FirstFailureAppend(s[1..], t, v);
    }
  }

  /** Once a check has failed, no later check replaces its message. */
  lemma FirstFailureSticky(s: seq<SafeError>, t: seq<SafeError>, v: SafeInputs)
    requires FirstFailure(s, v).Some?
    ensures FirstFailure(s + t, v) == FirstFailure(s, v)
  {
    FirstFailureAppend(s, t, v);
  }

  /** The result is exactly the check at the first failing position. */
  lemma {:induction false} FirstFailureIsFirst(rules: seq<SafeError>, v: SafeInputs, i: nat)
    requires i < |rules| && Fails(rules[i], v)
    requires forall j :: 0 <= j < i ==> !Fails(rules[j], v)
    ensures FirstFailure(rules, v) == Some(rules[i])
  {
    if i > 0 {
      assert !Fails(rules[0], v);
      FirstFailureIsFirst(rules[1..], v, i - 1);
    }
  }

  /** One more check after `s`: it can only speak when `s` was silent. */
  lemma FirstFailureSnoc(s: seq<SafeError>, e: SafeError, v: SafeInputs)
    ensures FirstFailure(s + [e], v) == Coalesce(FirstFailure(s, v), e, v)
  {
    FirstFailureAppend(s, [e], v);
  }

  /** `error ?? message` for check `e`: keeps an earlier message, else reports `e` if it fails. */
  function Coalesce(error: Option<SafeError>, e: SafeError, v: SafeInputs): (r: Option<SafeError>)
    ensures error.Some? ==> r == error
    ensures error.None? ==> (r.Some? <==> Fails(e, v)) && (r.Some? ==> r.value == e)
  {
    if error.Some? then error else if Fails(e, v) then Some(e) else None
  }

  /** The chain's value after its first `k` checks, as the statements compute it. */
  function ChainAfter(k: nat, v: SafeInputs): Option<SafeError>
    requires k <= |RuleOrder|
  {
    if k == 0 then None else Coalesce(ChainAfter(k - 1, v), RuleOrder[k - 1], v)
  }

  /** Evaluating the checks one after another is the first failure of the prefix. */
  lemma {:induction false} ChainAfterIsFirstFailure(k: nat, v: SafeInputs)
    requires k <= |RuleOrder|
    ensures ChainAfter(k, v) == FirstFailure(RuleOrder[..k], v)
  {
    if k > 0 {
      ChainAfterIsFirstFailure(k - 1, v);
      assert RuleOrder[..k] == RuleOrder[..k - 1] + [RuleOrder[k - 1]];
      FirstFailureSnoc(RuleOrder[..k - 1], RuleOrder[k - 1], v);
    }
  }

  /** The form's chain of `error = error ?? message` statements. */
  method ComputeSafeError(v: SafeInputs) returns (error: Option<SafeError>)
    ensures error == SafeInfoError(v)
  {
    error := None;
    if !v.hasAccount {
      error := Some(ConnectWallet);
    }
    assert error == ChainAfter(1, v);
    if !v.hasProxy {
      error := if error.Some? then error else Some(CreateAccount);
    }
    assert error == ChainAfter(2, v);

    error := DepositBorrowChecks(v, error);
    error := RepayWithdrawChecks(v, error);
    error := LimitChecks(v, error);

    ChainAfterIsFirstFailure(16, v);
    assert RuleOrder[..16] == RuleOrder;
  }

  /** The three checks of the deposit-and-borrow form. */
  method DepositBorrowChecks(v: SafeInputs, before: Option<SafeError>) returns (error: Option<SafeError>)
    requires before == ChainAfter(2, v)
    ensures error == ChainAfter(5, v)
  {
    error := before;
    if v.mode == DepositBorrow {
      if v.leftInput > v.availableEth {
        error := if error.Some? then error else Some(InsufficientBalance);
      }
      assert error == ChainAfter(3, v);
      if v.rightInput > v.availableRai {
        error := if error.Some? then error else Some(BorrowExceedsAvailable);
      }
      assert error == ChainAfter(4, v);
      if v.leftInput == 0 && v.rightInput == 0 {
        error := if error.Some? then error else Some(EnterDepositOrBorrow);
      }
    } else {
      assert error == ChainAfter(3, v);
      assert error == ChainAfter(4, v);
    }
  }

  /** The five checks of the repay-and-withdraw form. */
  method RepayWithdrawChecks(v: SafeInputs, before: Option<SafeError>) returns (error: Option<SafeError>)
    requires before == ChainAfter(5, v)
    ensures error == ChainAfter(10, v)
  {
    error := before;
    if v.mode == RepayWithdraw {
      if v.leftInput == 0 && v.rightInput == 0 {
        error := if error.Some? then error else Some(EnterFreeOrRepay);
      }
      assert error == ChainAfter(6, v);
      if v.leftInput > v.availableEth {
        error := if error.Some? then error else Some(UnlockExceedsAvailable);
      }
      assert error == ChainAfter(7, v);
      if v.rightInput > v.availableRai {
        error := if error.Some? then error else Some(RepayExceedsOwed);
      }
      assert error == ChainAfter(8, v);
      if v.rightInput != 0 {
        if v.rightInput < v.availableRai && v.repayPercent > 95 {
          error := if error.Some? then error else Some(ResidualRepay);
        }
      }
      assert error == ChainAfter(9, v);
      if v.rightInput != 0 && v.rightInput > v.raiBalance {
        error := if error.Some? then error else Some(BalanceIssue);
      }
    } else {
      assert error == ChainAfter(6, v);
      assert error == ChainAfter(7, v);
      assert error == ChainAfter(8, v);
      assert error == ChainAfter(9, v);
    }
  }

  /** The checks every mode runs: debt floor, safety, the three ceilings and the
      create form's missing deposit. */
  method LimitChecks(v: SafeInputs, before: Option<SafeError>) returns (error: Option<SafeError>)
    requires before == ChainAfter(10, v)
    ensures error == ChainAfter(16, v)
  {
    error := before;
    if v.totalDebt != 0 && v.totalDebt < v.debtFloor {
      error := if error.Some? then error else Some(BelowDebtFloor);
    }
    assert error == ChainAfter(11, v);
    if !v.isSafe && v.collateralRatio >= 0 {
      error := if error.Some? then error else Some(TooMuchDebt);
    }
    assert error == ChainAfter(12, v);
    if v.totalDebt > v.globalDebtCeiling {
      error := if error.Some? then error else Some(GlobalDebtCeiling);
    }
    assert error == ChainAfter(13, v);
    if v.totalDebt > v.debtCeiling {
      error := if error.Some? then error else Some(RaiDebtCeiling);
    }
    assert error == ChainAfter(14, v);
    if v.mode == Create {
      if v.leftInput == 0 {
        error := if error.Some? then error else Some(EnterEthAmount);
      }
    }
    assert error == ChainAfter(15, v);
    if v.mode != Create {
      if v.totalDebt >= v.perSafeDebtCeiling {
        error := if error.Some? then error else Some(PerSafeDebtCeiling);
      }
    }
  }

  /** The rules grouped as the form writes them: access, deposit-and-borrow,
      repay-and-withdraw, then the checks every mode runs. */
  const AccessRules: seq<SafeError> := [ConnectWallet, CreateAccount]
  const DepositBorrowRules: seq<SafeError> := [InsufficientBalance, BorrowExceedsAvailable, EnterDepositOrBorrow]
  const RepayWithdrawRules: seq<SafeError> :=
    [EnterFreeOrRepay, UnlockExceedsAvailable, RepayExceedsOwed, ResidualRepay, BalanceIssue]
  const LimitRules: seq<SafeError> :=
    [BelowDebtFloor, TooMuchDebt, GlobalDebtCeiling, RaiDebtCeiling, EnterEthAmount, PerSafeDebtCeiling]

  /** Position of each check in the rule list. */
  function Rank(e: SafeError): (r: nat)
    ensures r < |RuleOrder| && RuleOrder[r] == e
  {
    match e
    case ConnectWallet => 0
    case CreateAccount => 1
    case InsufficientBalance => 2
    case BorrowExceedsAvailable => 3
    case EnterDepositOrBorrow => 4
    case EnterFreeOrRepay => 5
    case UnlockExceedsAvailable => 6
    case RepayExceedsOwed => 7
    case ResidualRepay => 8
    case BalanceIssue => 9
    case BelowDebtFloor => 10
    case TooMuchDebt => 11
    case GlobalDebtCeiling => 12
    case RaiDebtCeiling => 13
    case EnterEthAmount => 14
    case PerSafeDebtCeiling => 15
  }

  /** No check is listed twice. */
  lemma RuleOrderDistinct(i: nat, j: nat)
    requires i < |RuleOrder| && j < |RuleOrder| && RuleOrder[i] == RuleOrder[j]
    ensures i == j
  {
    assert Rank(RuleOrder[i]) == i;
    assert Rank(RuleOrder[j]) == j;
  }

  /** A list in which no check fails reports nothing. */
  lemma {:induction false} FirstFailureNone(rules: seq<SafeError>, v: SafeInputs)
    requires forall e :: e in rules ==> !Fails(e, v)
    ensures FirstFailure(rules, v) == None
  {
    if rules != [] {
      assert rules[0] in rules;
      FirstFailureNone(rules[1..], v);
    }
  }

  /** Unfolding the first check of a list. */
  lemma FirstFailureCons(e: SafeError, t: seq<SafeError>, v: SafeInputs)
    ensures FirstFailure([e] + t, v) == if Fails(e, v) then Some(e) else FirstFailure(t, v)
  {
    assert ([e] + t)[0] == e;
    assert ([e] + t)[1..] == t;
  }

  /** The deposit-and-borrow group, check by check. */
  lemma DepositBorrowRulesFirst(v: SafeInputs)
    ensures FirstFailure(DepositBorrowRules, v) ==
      if Fails(InsufficientBalance, v) then Some(InsufficientBalance)
      else if Fails(BorrowExceedsAvailable, v) then Some(BorrowExceedsAvailable)
      else if Fails(EnterDepositOrBorrow, v) then Some(EnterDepositOrBorrow)
      else None
  {
    assert DepositBorrowRules == [InsufficientBalance] + ([BorrowExceedsAvailable] + ([EnterDepositOrBorrow] + []));
    FirstFailureCons(InsufficientBalance, [BorrowExceedsAvailable] + ([EnterDepositOrBorrow] + []), v);
    FirstFailureCons(BorrowExceedsAvailable, [EnterDepositOrBorrow] + [], v);
    FirstFailureCons(EnterDepositOrBorrow, [], v);
  }

  /** The repay-and-withdraw group, check by check. */
  lemma RepayWithdrawRulesFirst(v: SafeInputs)
    ensures FirstFailure(RepayWithdrawRules, v) ==
      if Fails(EnterFreeOrRepay, v) then Some(EnterFreeOrRepay)
      else if Fails(UnlockExceedsAvailable, v) then Some(UnlockExceedsAvailable)
      else if Fails(RepayExceedsOwed, v) then Some(RepayExceedsOwed)
      else if Fails(ResidualRepay, v) then Some(ResidualRepay)
      else if Fails(BalanceIssue, v) then Some(BalanceIssue)
      else None
  {
    var t4 := [BalanceIssue] + [];
    var t3 := [ResidualRepay] + t4;
    var t2 := [RepayExceedsOwed] + t3;
    var t1 := [UnlockExceedsAvailable] + t2;
    assert RepayWithdrawRules == [EnterFreeOrRepay] + t1;
    FirstFailureCons(EnterFreeOrRepay, t1, v);
    FirstFailureCons(UnlockExceedsAvailable, t2, v);
    FirstFailureCons(RepayExceedsOwed, t3, v);
    FirstFailureCons(ResidualRepay, t4, v);
    FirstFailureCons(BalanceIssue, [], v);
  }

  /** The access group, check by check. */
  lemma AccessRulesFirst(v: SafeInputs)
    ensures FirstFailure(AccessRules, v) ==
      if !v.hasAccount then Some(ConnectWallet)
      else if !v.hasProxy then Some(CreateAccount)
      else None
  {
    assert AccessRules == [ConnectWallet] + ([CreateAccount] + []);
    FirstFailureCons(ConnectWallet, [CreateAccount] + [], v);
    FirstFailureCons(CreateAccount, [], v);
  }

  /** If the check at position `j` fails, something at or before `j` is reported. */
  lemma {:induction false} FirstFailureNoLaterThan(rules: seq<SafeError>, v: SafeInputs, j: nat)
    requires j < |rules| && Fails(rules[j], v)
    ensures FirstFailure(rules, v).Some? && FirstFailure(rules, v).value in rules[..j + 1]
  {
    if j > 0 && !Fails(rules[0], v) {
      FirstFailureNoLaterThan(rules[1..], v, j - 1);
      assert rules[1..][..j] == rules[..j + 1][1..];
    }
  }

  /** The form shows the message of check `i` exactly when check `i` fails and
      every earlier check passes. */
  lemma ReportedIffFirstFailing(v: SafeInputs, i: nat)
    requires i < |RuleOrder|
    ensures SafeInfoError(v) == Some(RuleOrder[i]) <==>
      (Fails(RuleOrder[i], v) && forall j :: 0 <= j < i ==> !Fails(RuleOrder[j], v))
  {
    if Fails(RuleOrder[i], v) && forall j :: 0 <= j < i ==> !Fails(RuleOrder[j], v) {
      FirstFailureIsFirst(RuleOrder, v, i);
    }
    if SafeInfoError(v) == Some(RuleOrder[i]) {
      forall j | 0 <= j < i
        ensures !Fails(RuleOrder[j], v)
      {
        if Fails(RuleOrder[j], v) {
          FirstFailureNoLaterThan(RuleOrder, v, j);
          var k :| 0 <= k <= j && RuleOrder[..j + 1][k] == RuleOrder[i];
          RuleOrderDistinct(k, i);
        }
      }
    }
  }

  /** The message is chosen group by group: a later group speaks only when
      every earlier group was silent. */
  lemma SafeInfoErrorByGroup(v: SafeInputs)
    ensures SafeInfoError(v) ==
      if FirstFailure(AccessRules, v).Some? then FirstFailure(AccessRules, v)
      else if FirstFailure(DepositBorrowRules, v).Some? then FirstFailure(DepositBorrowRules, v)
      else if FirstFailure(RepayWithdrawRules, v).Some? then FirstFailure(RepayWithdrawRules, v)
      else FirstFailure(LimitRules, v)
  {
    assert RuleOrder == AccessRules + (DepositBorrowRules + (RepayWithdrawRules + LimitRules));
    FirstFailureAppend(AccessRules, DepositBorrowRules + (RepayWithdrawRules + LimitRules), v);
    FirstFailureAppend(DepositBorrowRules, RepayWithdrawRules + LimitRules, v);
    FirstFailureAppend(RepayWithdrawRules, LimitRules, v);
  }

  /** Without a connected account the message is always 'Connect Wallet'. */
  lemma NoAccountMeansConnectWallet(v: SafeInputs)
    requires !v.hasAccount
    ensures SafeInfoError(v) == Some(ConnectWallet)
  {
    ReportedIffFirstFailing(v, 0);
  }

  /** In the deposit-and-borrow form, once access is in place: insufficient ETH,
      then borrowing over the headroom, then the empty-input prompt, then the
      common checks. */
  lemma DepositBorrowPrecedence(v: SafeInputs)
    requires v.mode == DepositBorrow && v.hasAccount && v.hasProxy
    ensures SafeInfoError(v) ==
      if v.leftInput > v.availableEth then Some(InsufficientBalance)
      else if v.rightInput > v.availableRai then Some(BorrowExceedsAvailable)
      else if v.leftInput == 0 && v.rightInput == 0 then Some(EnterDepositOrBorrow)
      else FirstFailure(LimitRules, v)
  {
    SafeInfoErrorByGroup(v);
    AccessRulesFirst(v);
    DepositBorrowRulesFirst(v);
    RepayWithdrawRulesFirst(v);
  }

  /** In the repay-and-withdraw form, once access is in place: the empty-input
      prompt, ETH to unlock, repay over owed, the residual rule, the wallet
      balance, then the common checks. */
  lemma RepayWithdrawPrecedence(v: SafeInputs)
    requires v.mode == RepayWithdraw && v.hasAccount && v.hasProxy
    ensures SafeInfoError(v) ==
      if v.leftInput == 0 && v.rightInput == 0 then Some(EnterFreeOrRepay)
      else if v.leftInput > v.availableEth then Some(UnlockExceedsAvailable)
      else if v.rightInput > v.availableRai then Some(RepayExceedsOwed)
      else if v.rightInput != 0 && v.rightInput < v.availableRai && v.repayPercent > 95 then Some(ResidualRepay)
      else if v.rightInput != 0 && v.rightInput > v.raiBalance then Some(BalanceIssue)
      else FirstFailure(LimitRules, v)
  {
    SafeInfoErrorByGroup(v);
    AccessRulesFirst(v);
    DepositBorrowRulesFirst(v);
    RepayWithdrawRulesFirst(v);
  }

  /** The debt-floor message needs a non-zero total debt strictly below the floor;
      when that holds and no earlier check fails, it is the message shown. */
  lemma DebtFloorRule(v: SafeInputs)
    ensures SafeInfoError(v) == Some(BelowDebtFloor) ==> 0 < v.totalDebt < v.debtFloor
    ensures v.totalDebt == 0 ==> SafeInfoError(v) != Some(BelowDebtFloor)
    ensures 0 < v.totalDebt < v.debtFloor && FirstFailure(RuleOrder[..10], v).None? ==>
      SafeInfoError(v) == Some(BelowDebtFloor)
  {
    assert RuleOrder == RuleOrder[..10] + RuleOrder[10..];
    FirstFailureAppend(RuleOrder[..10], RuleOrder[10..], v);
  }

  /** The per-safe ceiling is never reported by the create form and rejects a
      debt equal to the ceiling; the create form's missing deposit is reported
      when nothing before it failed. */
  lemma CeilingAndCreateRules(v: SafeInputs)
    ensures SafeInfoError(v) == Some(PerSafeDebtCeiling) ==>
      v.mode != Create && v.totalDebt >= v.perSafeDebtCeiling
    ensures v.mode != Create && v.totalDebt == v.perSafeDebtCeiling && FirstFailure(RuleOrder[..15], v).None? ==>
      SafeInfoError(v) == Some(PerSafeDebtCeiling)
    ensures v.mode == Create && v.leftInput == 0 && FirstFailure(RuleOrder[..14], v).None? ==>
      SafeInfoError(v) == Some(EnterEthAmount)
  {
    assert RuleOrder == RuleOrder[..15] + [PerSafeDebtCeiling];
    FirstFailureSnoc(RuleOrder[..15], PerSafeDebtCeiling, v);
    assert RuleOrder == RuleOrder[..14] + [EnterEthAmount, PerSafeDebtCeiling];
    FirstFailureAppend(RuleOrder[..14], [EnterEthAmount, PerSafeDebtCeiling], v);
  }
}
