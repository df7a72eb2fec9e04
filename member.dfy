/**
 * One member row of the membership list: the member's flags and balances as the row
 * holds them, refreshed from the server, and the operator's actions on them (freeze,
 * invitation code, withdrawals, add money, VIP level, parent code, task reset,
 * credibility, time extension, delete). Each action is a confirmation dialog followed
 * by a PATCH; the row changes its own copy once the request resolves.
 */
module Member {
  import opened Wrappers
  import opened Text
  import opened Numbers
  import opened Effects

  // ---------------------------------------------------------------- data

  /** What the server returns for a member; `combinationEndTime` is None for an invalid date. */
  datatype Snapshot = Snapshot(
    username: string, email: string, phone: string,
    frozenStatus: bool, invitationStatus: bool, withdrawStatus: bool,
    totalBal: real, trainingBal: real, totalDeposit: real, totalWithdraw: real,
    resetCount: int, taskCount: int,
    vipLevel: string, superviser: string, reputation: string,
    combinationEndTime: Option<int>)

  /** A deposit record posted for an add-money action. */
  datatype Deposit = Deposit(username: string, amount: string, status: string, operator: Option<string>, depositType: string)

  /** The requests a row sends, all addressed by the member's key. */
  datatype Request =
    | FrozenUpdate(frozenStatus: bool)
    | ReferUpdate(invitationStatus: bool)
    | WithdrawUpdate(withdrawStatus: bool)
    | DepositPost(deposit: Deposit)
    | BalanceUpdate(totalBal: real, totalDeposit: real, totalWithdraw: real)
    | TrainingUpdate(trainingBal: real)
    | VipUpdate(vipLevel: string, trainingBal: real, totalBal: real)
    | SuperviserUpdate(superviser: string)
    | TaskUpdate(taskCount: int, resetCount: int)
    | ReputationUpdate(reputation: string)
    | TimeExtend(combinationEndTime: int)

  /** The key the row's requests go to: the email, or the phone when the email is empty. */
  function UserEmail(email: string, phone: string): (key: string)
    ensures email != "" ==> key == email
    ensures email == "" ==> key == phone
    ensures key == "" <==> email == "" && phone == ""
  {
    if email == "" then phone else email
  }

  // ---------------------------------------------------------------- the countdown

  /** JavaScript's `a % b` for a positive divisor: the remainder takes the sign of `a`. */
  function JsRem(a: int, b: int): (r: int)
    requires b > 0
    ensures a >= 0 ==> r == a % b
    ensures a < 0 ==> -b < r <= 0
  {
    if a >= 0 then a % b else -((-a) % b)
  }

  /** `String(x).padStart(2, '0')`. */
  function PadStart2(s: string): (r: string)
    ensures |r| >= 2 && |r| >= |s| && r[|r| - |s|..] == s
  {
    if |s| == 0 then "00" else if |s| == 1 then "0" + s else s
  }

  /**
   * `formatTime(secs)`: hours `Math.floor(secs / 3600)`, minutes
   * `Math.floor((secs % 3600) / 60)`, seconds `secs % 60`, each padded to two places.
   * Dafny's `/` by a positive number is already the floor.
   */
  function FormatTime(secs: int): string {
    var h := secs / 3600;
    var m := JsRem(secs, 3600) / 60;
    var s := JsRem(secs, 60);
    PadStart2(IntToString(h)) + " : " + PadStart2(IntToString(m)) + " : " + PadStart2(IntToString(s))
  }

  /** Padding a natural number is `Pad2`. */
  lemma PadStartNat(n: nat)
    ensures PadStart2(IntToString(n)) == Pad2(n)
  {
  }

  /** The minutes and seconds fields of a count: below 60, and adding back up with the hours. */
  lemma ClockFields(secs: int)
    requires secs >= 0
    ensures secs % 3600 / 60 < 60 && secs % 60 == secs % 3600 % 60
    ensures secs / 3600 * 3600 + secs % 3600 / 60 * 60 + secs % 60 == secs
  {
    var q, r := secs / 3600, secs % 3600;
    assert secs == 3600 * q + r;
    var m, s := r / 60, r % 60;
    assert r == 60 * m + s;
    assert secs == 60 * (60 * q + m) + s;
    assert secs % 60 == s;
  }

  /**
   * For a running countdown the three fields are whole hours, minutes below 60 and
   * seconds below 60 that add back up to the count, and under 100 hours the text is
   * always "HH : MM : SS", twelve characters.
   */
  lemma FormatTimeFields(secs: int)
    requires secs >= 0
    ensures FormatTime(secs) == Pad2(secs / 3600) + " : " + Pad2(secs % 3600 / 60) + " : " + Pad2(secs % 60)
    ensures secs % 3600 / 60 < 60 && secs % 60 < 60
    ensures secs / 3600 * 3600 + secs % 3600 / 60 * 60 + secs % 60 == secs
    ensures secs < 360000 ==> |FormatTime(secs)| == 12
  {
    ClockFields(secs);
    var h, m, s := secs / 3600, secs % 3600 / 60, secs % 60;
    assert JsRem(secs, 3600) / 60 == m;
    assert JsRem(secs, 60) == s;
    PadStartNat(h);
    PadStartNat(m);
    PadStartNat(s);
    if secs < 360000 {
      assert h < 100;
    }
  }

  /** An expired countdown is shown with negative fields. */
  lemma ExpiredCountdown()
    ensures FormatTime(-1) == "-1 : -1 : -1"
  {
    var minusOne := PadStart2(IntToString(-1));
    MinusOneShown();
    assert minusOne == "-1";
    var m := JsRem(-1, 3600);
    assert m == -1;
    assert m / 60 == -1;
    assert JsRem(-1, 60) == -1;
    assert -1 / 3600 == -1;
    assert FormatTime(-1) == minusOne + " : " + minusOne + " : " + minusOne;
  }

  /** `String(-1).padStart(2, '0')` is "-1". */
  lemma MinusOneShown()
    ensures PadStart2(IntToString(-1)) == "-1"
  {
    assert NatToString(1) == "1";
    assert IntToString(-1) == "-1";
  }

  // ---------------------------------------------------------------- the time extension

  /** One extension input: `parseInt(value || 0)`, so a blank input counts as 0 and other text may be NaN. */
  function ExtensionField(value: string): (r: Option<int>)
    ensures value == "" ==> r == Some(0)
    ensures value != "" ==> r == ParseInt(value)
  {
    if value == "" then Some(0) else ParseInt(value)
  }

  /** `h * 3600 + m * 60 + s`, NaN (None) when any input is. */
  function ExtensionSeconds(hours: string, mins: string, secs: string): (r: Option<int>)
    ensures r.Some? <==> ExtensionField(hours).Some? && ExtensionField(mins).Some? && ExtensionField(secs).Some?
    ensures r.Some? ==>
      r.value == ExtensionField(hours).value * 3600 + ExtensionField(mins).value * 60 + ExtensionField(secs).value
  {
    var h, m, s := ExtensionField(hours), ExtensionField(mins), ExtensionField(secs);
    if h.Some? && m.Some? && s.Some? then Some(h.value * 3600 + m.value * 60 + s.value) else None
  }

  /** Blank inputs add nothing. */
  lemma BlankInputsAddNothing(hours: string)
    ensures ExtensionSeconds(hours, "", "") ==
      (if ExtensionField(hours).Some? then Some(ExtensionField(hours).value * 3600) else None)
    ensures ExtensionSeconds("", "", "") == Some(0)
  {
  }

  /** A padded field read back by the extension dialog is the number itself. */
  lemma ReadsBack(n: nat)
    ensures ExtensionField(Pad2(n)) == Some(n)
  {
    ParseIntOfDigits(Pad2(n));
    Pad2Value(n);
  }

  /** Three padded fields read back by the extension dialog give their total in seconds. */
  lemma ReadsBackSum(h: nat, m: nat, s: nat)
    ensures ExtensionSeconds(Pad2(h), Pad2(m), Pad2(s)) == Some(h * 3600 + m * 60 + s)
  {
    ReadsBack(h);
    ReadsBack(m);
    ReadsBack(s);
    FieldsSum(Pad2(h), Pad2(m), Pad2(s), h, m, s);
  }

  lemma FieldsSum(hours: string, mins: string, secs: string, h: int, m: int, s: int)
    requires ExtensionField(hours) == Some(h) && ExtensionField(mins) == Some(m) && ExtensionField(secs) == Some(s)
    ensures ExtensionSeconds(hours, mins, secs) == Some(h * 3600 + m * 60 + s)
  {
  }

  /** Typing back the fields the countdown shows extends by exactly the shown time. */
  lemma FormatTimeReadsBack(secs: int)
    requires secs >= 0
    ensures ExtensionSeconds(Pad2(secs / 3600), Pad2(secs % 3600 / 60), Pad2(secs % 60)) == Some(secs)
  {
    var h, m, s := secs / 3600, secs % 3600 / 60, secs % 60;
    ClockFields(secs);
    assert h * 3600 + m * 60 + s == secs;
    ReadsBackSum(h, m, s);
  }

  // ---------------------------------------------------------------- input checks

  /** The add-money check: `!amount || isNaN(amount) || Number(amount) <= 0` rejects. */
  predicate ValidAmount(amount: string) {
    amount != "" && ToNumber(amount).Some? && ToNumber(amount).value > 0.0
  }

  /** An accepted amount is read by `parseFloat` as the positive number the check saw. */
  lemma ValidAmountParses(amount: string)
    requires ValidAmount(amount)
    ensures ParseFloat(amount) == ToNumber(amount) && ParseFloat(amount).value > 0.0
  {
    assert !IsBlank(amount);
    ToNumberThenParseFloat(amount);
  }

  /** The credibility check on the trimmed input: `!input || isNaN(input) || input < 0` rejects. */
  predicate ValidCredibility(input: string) {
    input != "" && ToNumber(input).Some? && ToNumber(input).value >= 0.0
  }

  /** The balance type of a training deposit. */
  const TrainingKind := "Training"

  /** The training balance a VIP change sends: 1000 for "Training", otherwise 0. */
  function VipTrainingBal(level: string): (r: real)
    ensures r == 1000.0 <==> level == "Training"
    ensures r == 0.0 <==> level != "Training"
  {
    if level == "Training" then 1000.0 else 0.0
  }

  /**
   * The balances an add-money action sends, from the fetched member: "Deductbalance"
   * takes the amount off the balance and leaves the deposits, any other type adds it to
   * both; the withdrawals go back unchanged.
   */
  function BalancePatch(u: Snapshot, balanceType: string, v: real): (r: Request)
    ensures r.BalanceUpdate? && r.totalWithdraw == u.totalWithdraw
    ensures balanceType == "Deductbalance" ==> r.totalBal == u.totalBal - v && r.totalDeposit == u.totalDeposit
    ensures balanceType != "Deductbalance" ==> r.totalBal == u.totalBal + v && r.totalDeposit == u.totalDeposit + v
  {
    if balanceType == "Deductbalance" then BalanceUpdate(u.totalBal - v, u.totalDeposit, u.totalWithdraw)
    else BalanceUpdate(u.totalBal + v, u.totalDeposit + v, u.totalWithdraw)
  }

  /** Whatever the type, the balance moves by the amount and the deposits never fall. */
  lemma BalancePatchMoves(u: Snapshot, balanceType: string, v: real)
    requires v > 0.0
    ensures BalancePatch(u, balanceType, v).totalDeposit >= u.totalDeposit
    ensures BalancePatch(u, balanceType, v).totalBal - u.totalBal == v || BalancePatch(u, balanceType, v).totalBal - u.totalBal == -v
  {
  }

  // ---------------------------------------------------------------- the row

  class MemberRow {
    /** The member as last fetched (`user`); None until the first fetch answers. */
    var user: Option<Snapshot>
    var isLoading: bool
    var key: string
    var frozenStatus: bool
    var invitationStatus: bool
    var withdrawStatus: bool
    var totalBal: real
    var trainingBal: real
    var totalDeposit: real
    var resetCount: int
    var taskCount: int
    var vipLevel: string
    var superviser: string
    var reputation: string
    var combinationEndTime: Option<int>

    /** The row starts from the list's copy of the member, with the spinner on. */
    constructor(data: Snapshot)
      ensures user.None? && isLoading && key == UserEmail(data.email, data.phone)
      ensures frozenStatus == data.frozenStatus && invitationStatus == data.invitationStatus
      ensures withdrawStatus == data.withdrawStatus
      ensures totalBal == data.totalBal && trainingBal == data.trainingBal && totalDeposit == data.totalDeposit
      ensures resetCount == data.resetCount && taskCount == data.taskCount
      ensures vipLevel == data.vipLevel && superviser == data.superviser && reputation == data.reputation
      ensures combinationEndTime == data.combinationEndTime
    {
      user := None;
      isLoading := true;
      key := UserEmail(data.email, data.phone);
      frozenStatus := data.frozenStatus;
      invitationStatus := data.invitationStatus;
      withdrawStatus := data.withdrawStatus;
      totalBal := data.totalBal;
      trainingBal := data.trainingBal;
      totalDeposit := data.totalDeposit;
      resetCount := data.resetCount;
      taskCount := data.taskCount;
      vipLevel := data.vipLevel;
      superviser := data.superviser;
      reputation := data.reputation;
      combinationEndTime := data.combinationEndTime;
    }

    /**
     * `fetchData`: a fetched member replaces the row's copy of every field except the
     * training balance and the reset count, which the refresh does not set; a failed
     * fetch changes nothing.
     */
    method Refresh(fetched: Option<Snapshot>)
      modifies this`user, this`isLoading, this`frozenStatus, this`invitationStatus, this`withdrawStatus
      modifies this`totalBal, this`totalDeposit, this`vipLevel, this`superviser, this`taskCount
      modifies this`reputation, this`combinationEndTime
      ensures fetched.None? ==>
        user == old(user) && isLoading == old(isLoading) && frozenStatus == old(frozenStatus)
        && invitationStatus == old(invitationStatus) && withdrawStatus == old(withdrawStatus)
        && totalBal == old(totalBal) && totalDeposit == old(totalDeposit) && vipLevel == old(vipLevel)
        && superviser == old(superviser) && taskCount == old(taskCount) && reputation == old(reputation)
        && combinationEndTime == old(combinationEndTime)
      ensures fetched.Some? ==>
        var s := fetched.value;
        user == fetched && !isLoading && frozenStatus == s.frozenStatus && invitationStatus == s.invitationStatus
        && withdrawStatus == s.withdrawStatus && totalBal == s.totalBal && totalDeposit == s.totalDeposit
        && vipLevel == s.vipLevel && superviser == s.superviser && taskCount == s.taskCount
        && reputation == s.reputation && combinationEndTime == s.combinationEndTime
    {
      if fetched.Some? {
        var s := fetched.value;
        user := fetched;
        frozenStatus := s.frozenStatus;
        invitationStatus := s.invitationStatus;
        withdrawStatus := s.withdrawStatus;
        totalBal := s.totalBal;
        totalDeposit := s.totalDeposit;
        vipLevel := s.vipLevel;
        superviser := s.superviser;
        taskCount := s.taskCount;
        reputation := s.reputation;
        combinationEndTime := s.combinationEndTime;
        isLoading := false;
      }
    }

    /**
     * Freeze / Unfreeze: once confirmed, the opposite flag is sent; when the request
     * resolves (any answer) the row flips its flag, so two answered toggles restore it.
     */
    method ToggleFreeze(confirmed: bool, reply: Reply) returns (sent: seq<Request>)
      modifies this`frozenStatus
      ensures sent == (if confirmed then [FrozenUpdate(!old(frozenStatus))] else [])
      ensures frozenStatus == (if confirmed && reply.Answered? then !old(frozenStatus) else old(frozenStatus))
    {
      sent := [];
      if confirmed {
        sent := [FrozenUpdate(!frozenStatus)];
        if reply.Answered? {
          frozenStatus := !frozenStatus;
        }
      }
    }

    /** Enable / Disable the invitation code, in the same way. */
    method ToggleInvitation(confirmed: bool, reply: Reply) returns (sent: seq<Request>)
      modifies this`invitationStatus
      ensures sent == (if confirmed then [ReferUpdate(!old(invitationStatus))] else [])
      ensures invitationStatus == (if confirmed && reply.Answered? then !old(invitationStatus) else old(invitationStatus))
    {
      sent := [];
      if confirmed {
        sent := [ReferUpdate(!invitationStatus)];
        if reply.Answered? {
          invitationStatus := !invitationStatus;
        }
      }
    }

    /** Restrict / Unrestrict withdrawals, in the same way. */
    method ToggleWithdraw(confirmed: bool, reply: Reply) returns (sent: seq<Request>)
      modifies this`withdrawStatus
      ensures sent == (if confirmed then [WithdrawUpdate(!old(withdrawStatus))] else [])
      ensures withdrawStatus == (if confirmed && reply.Answered? then !old(withdrawStatus) else old(withdrawStatus))
    {
      sent := [];
      if confirmed {
        sent := [WithdrawUpdate(!withdrawStatus)];
        if reply.Answered? {
          withdrawStatus := !withdrawStatus;
        }
      }
    }

    /**
     * `handleAddMoney`. An amount that is empty, not a number or not positive keeps the
     * dialog open, so nothing is sent. Otherwise a deposit record is posted and the
     * fetched balances are patched: "Deductbalance" takes the amount off the balance
     * and leaves the deposits, any other type adds it to both; the withdrawals are sent
     * back unchanged. When the patch resolves the row adds the amount to its balance
     * and deposits whatever the type.
     */
    method AddMoney(balanceType: string, amount: string, operator: Option<string>, confirmed: bool, reply: Reply)
      returns (sent: seq<Request>)
      requires user.Some?
      modifies this`totalBal, this`totalDeposit
      ensures !(confirmed && ValidAmount(amount)) ==>
        sent == [] && totalBal == old(totalBal) && totalDeposit == old(totalDeposit)
      ensures confirmed && ValidAmount(amount) ==>
        var u := user.value;
        var v := ToNumber(amount).value;
        v > 0.0
        && sent == [DepositPost(Deposit(u.username, amount, "Success", operator, balanceType)), BalancePatch(u, balanceType, v)]
        && totalBal == (if reply.Answered? then old(totalBal) + v else old(totalBal))
        && totalDeposit == (if reply.Answered? then old(totalDeposit) + v else old(totalDeposit))
    {
      sent := [];
      if !confirmed || !ValidAmount(amount) {
        return;
      }
      ValidAmountParses(amount);
      var u := user.value;
      var v := ParseFloat(amount).value;
      sent := [DepositPost(Deposit(u.username, amount, "Success", operator, balanceType)), BalancePatch(u, balanceType, v)];
      if reply.Answered? {
        totalBal := totalBal + v;
        totalDeposit := totalDeposit + v;
      }
    }

    /** `handleTrainingMoney`: the same check; the training balance gains the amount. */
    method AddTrainingMoney(amount: string, operator: Option<string>, confirmed: bool, reply: Reply)
      returns (sent: seq<Request>)
      requires user.Some?
      modifies this`trainingBal
      ensures !(confirmed && ValidAmount(amount)) ==> sent == [] && trainingBal == old(trainingBal)
      ensures confirmed && ValidAmount(amount) ==>
        var u := user.value;
        var v := ToNumber(amount).value;
        sent == [DepositPost(Deposit(u.username, amount, "Success", operator, TrainingKind)), TrainingUpdate(u.trainingBal + v)]
        && trainingBal == (if reply.Answered? then old(trainingBal) + v else old(trainingBal))
    {
      if !confirmed || !ValidAmount(amount) {
        return [];
      }
      // `parseFloat(amount)`, which is this number by `ValidAmountParses`.
      var v := ToNumber(amount).value;
      trainingBal := if reply.Answered? then trainingBal + v else trainingBal;
      var u := user.value;
      sent := [DepositPost(Deposit(u.username, amount, "Success", operator, TrainingKind)), TrainingUpdate(u.trainingBal + v)];
    }

    /**
     * `handleVipLevel`: the chosen level is sent with a training balance of 1000 for
     * "Training" and 0 otherwise, and with the balance as the row holds it. The row shows
     * the level once the request resolves.
     */
    method ChangeVip(level: string, confirmed: bool, reply: Reply) returns (sent: seq<Request>)
      modifies this`vipLevel
      ensures sent == (if confirmed then [VipUpdate(level, VipTrainingBal(level), totalBal)] else [])
      ensures vipLevel == (if confirmed && reply.Answered? then level else old(vipLevel))
    {
      sent := [];
      if confirmed {
        var isTraining := level == "Training";
        var training := if isTraining then 1000.0 else 0.0;
        var total := if isTraining then totalBal else totalBal + training;
        sent := [VipUpdate(level, training, total)];
        if reply.Answered? {
          vipLevel := level;
        }
      }
    }

    /** `handleModifyParent`: a trimmed, non-empty code is sent and, once resolved, shown. */
    method ModifyParent(input: string, confirmed: bool, reply: Reply) returns (sent: seq<Request>)
      modifies this`superviser
      ensures !(confirmed && Trim(input) != "") ==> sent == [] && superviser == old(superviser)
      ensures confirmed && Trim(input) != "" ==>
        sent == [SuperviserUpdate(Trim(input))]
        && superviser == (if reply.Answered? then Trim(input) else old(superviser))
    {
      sent := [];
      var code := Trim(input);
      if confirmed && code != "" {
        sent := [SuperviserUpdate(code)];
        if reply.Answered? {
          superviser := code;
        }
      }
    }

    /**
     * `handleResetTask`: only after both confirmations, the task count 0 and the fetched
     * reset count plus one are sent; once resolved, the row shows no tasks done and one
     * more reset than it showed.
     */
    method ResetTask(first: bool, second: bool, reply: Reply) returns (sent: seq<Request>)
      requires user.Some?
      modifies this`taskCount, this`resetCount
      ensures !(first && second) ==> sent == [] && taskCount == old(taskCount) && resetCount == old(resetCount)
      ensures first && second ==>
        sent == [TaskUpdate(0, user.value.resetCount + 1)]
        && taskCount == (if reply.Answered? then 0 else old(taskCount))
        && resetCount == (if reply.Answered? then old(resetCount) + 1 else old(resetCount))
    {
      sent := [];
      if first && second {
        sent := [TaskUpdate(0, user.value.resetCount + 1)];
        if reply.Answered? {
          taskCount := 0;
          resetCount := resetCount + 1;
        }
      }
    }

    /**
     * `handleCredibility`: the trimmed input must be a number of at least 0; it is sent
     * and, once resolved, shown with a "%" appended.
     */
    method Credibility(input: string, confirmed: bool, reply: Reply) returns (sent: seq<Request>)
      modifies this`reputation
      ensures !(confirmed && ValidCredibility(Trim(input))) ==> sent == [] && reputation == old(reputation)
      ensures confirmed && ValidCredibility(Trim(input)) ==>
        sent == [ReputationUpdate(Trim(input) + "%")]
        && reputation == (if reply.Answered? then Trim(input) + "%" else old(reputation))
    {
      sent := [];
      var value := Trim(input);
      if confirmed && ValidCredibility(value) {
        sent := [ReputationUpdate(value + "%")];
        if reply.Answered? {
          reputation := value + "%";
        }
      }
    }

    /**
     * `handleExtendTime`. A total of zero or less keeps the dialog open. A NaN total
     * passes the check, but the new time is then an invalid date whose `toISOString`
     * throws, so nothing is sent; the same happens when the stored end time is invalid.
     * Otherwise the end time moves later by the total, in milliseconds, is sent, and is
     * stored without waiting for the answer.
     */
    method ExtendTime(hours: string, mins: string, secs: string, confirmed: bool) returns (sent: seq<Request>)
      modifies this`combinationEndTime
      ensures var total := ExtensionSeconds(hours, mins, secs);
        if confirmed && total.Some? && total.value > 0 && old(combinationEndTime).Some? then
          var end := old(combinationEndTime).value + total.value * 1000;
          sent == [TimeExtend(end)] && combinationEndTime == Some(end)
        else
          sent == [] && combinationEndTime == old(combinationEndTime)
    {
      sent := [];
      var total := ExtensionSeconds(hours, mins, secs);
      if !confirmed || (total.Some? && total.value <= 0) {
        return;
      }
      if total.None? || combinationEndTime.None? {
        return;
      }
      var end := combinationEndTime.value + total.value * 1000;
      sent := [TimeExtend(end)];
      combinationEndTime := Some(end);
    }

    /** `handleDelete`: after both confirmations the list is asked to delete this member. */
    method Delete(first: bool, second: bool, id: string) returns (deleted: Option<string>)
      ensures deleted == (if first && second then Some(id) else None)
    {
      deleted := None;
      if first && second {
        deleted := Some(id);
      }
    }
  }
}
