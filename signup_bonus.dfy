/**
 * The signup bonus editor: one reward per day of a signup streak, days numbered from
 * 1, at least one day always present, and a save that refuses blank or non-numeric
 * rewards.
 */
module SignupBonus {
  import opened Wrappers
  import opened Text
  import opened Effects

  /** A reward cell: cleared (''), or a number that may be NaN (None). */
  datatype Reward = Blank | Amount(value: Option<int>)

  datatype Bonus = Bonus(day: int, reward: Reward)

  /** A message line under the editor; `kind` is "", "error" or "success". */
  datatype Message = Message(kind: string, text: string)

  const NoMessage := Message("", "")

  /** How the fetch ends: a JSON array, some other JSON value, or a rejected promise. */
  datatype Fetched = JsonArray(items: seq<Bonus>) | NotArray | Failed

  /** The list the page falls back on: day 1 with no reward. */
  const DefaultBonuses := [Bonus(1, Amount(Some(0)))]

  /** Days numbered 1, 2, ... in order. */
  predicate Consecutive(bonuses: seq<Bonus>) {
    forall i :: 0 <= i < |bonuses| ==> bonuses[i].day == i + 1
  }

  /** `handleAddDay`'s new list: a day numbered one past the length, with reward 0. */
  function WithDay(bonuses: seq<Bonus>): (r: seq<Bonus>)
    ensures |r| == |bonuses| + 1 && r[..|bonuses|] == bonuses
    ensures r[|bonuses|] == Bonus(|bonuses| + 1, Amount(Some(0)))
  {
    bonuses + [Bonus(|bonuses| + 1, Amount(Some(0)))]
  }

  /** `handleRemoveDay`'s new list: the last day dropped, unless it is the only one. */
  function WithoutDay(bonuses: seq<Bonus>): (r: seq<Bonus>)
    ensures |bonuses| > 1 ==> r == bonuses[..|bonuses| - 1]
    ensures |bonuses| <= 1 ==> r == bonuses
  {
    if |bonuses| > 1 then bonuses[..|bonuses| - 1] else bonuses
  }

  /** `value === '' ? '' : parseInt(value, 10)`. */
  function RewardOf(value: string): (r: Reward)
    ensures r.Blank? <==> value == ""
    ensures value != "" ==> r == Amount(ParseInt(value))
  {
    if value == "" then Blank else Amount(ParseInt(value))
  }

  /** Only the edited day changes, and only its reward. */
  function WithReward(bonuses: seq<Bonus>, index: nat, value: string): (r: seq<Bonus>)
    requires index < |bonuses|
    ensures |r| == |bonuses|
    ensures forall i :: 0 <= i < |bonuses| && i != index ==> r[i] == bonuses[i]
    ensures r[index].day == bonuses[index].day && r[index].reward == RewardOf(value)
  {
    bonuses[index := bonuses[index].(reward := RewardOf(value))]
  }

  /** `b.reward === '' || isNaN(b.reward)`. */
  predicate Invalid(b: Bonus) {
    b.reward.Blank? || b.reward.value.None?
  }

  /** Save goes ahead exactly when every reward is a number. */
  predicate AllValid(bonuses: seq<Bonus>) {
    forall i :: 0 <= i < |bonuses| ==> !Invalid(bonuses[i])
  }

  /** Removing a day undoes adding one. */
  lemma RemoveUndoesAdd(bonuses: seq<Bonus>)
    requires |bonuses| >= 1
    ensures WithoutDay(WithDay(bonuses)) == bonuses
  {
  }

  /** Adding, removing and editing keep the days numbered 1..n and at least one day. */
  lemma EditsKeepDays(bonuses: seq<Bonus>, index: nat, value: string)
    requires Consecutive(bonuses) && |bonuses| >= 1
    ensures Consecutive(WithDay(bonuses)) && |WithDay(bonuses)| >= 1
    ensures Consecutive(WithoutDay(bonuses)) && |WithoutDay(bonuses)| >= 1
    ensures index < |bonuses| ==> Consecutive(WithReward(bonuses, index, value))
  {
  }

  /** A number typed into a reward cell is a valid reward; a cleared cell is not. */
  lemma TypedNumberIsValid(bonuses: seq<Bonus>, index: nat, n: int)
    requires index < |bonuses| && AllValid(bonuses)
    ensures AllValid(WithReward(bonuses, index, IntToString(n)))
    ensures WithReward(bonuses, index, IntToString(n))[index].reward == Amount(Some(n))
    ensures !AllValid(WithReward(bonuses, index, ""))
  {
    ParseIntRoundTrip(n);
    assert IntToString(n) != "";
    assert Invalid(WithReward(bonuses, index, "")[index]);
  }

  /** The message after a save was sent: success only on an ok answer. */
  function SaveMessage(reply: Reply): (m: Message)
    ensures m.kind == "success" <==> reply == Answered(true)
    ensures m.kind != "success" ==> m.kind == "error"
  {
    if reply == Answered(true) then Message("success", "Signup bonus safol vabe update hoyeche!")
    else if reply.Answered? then Message("error", "Save korte somossha hoyeche.")
    else Message("error", "Server e connect kora jacche na.")
  }

  class BonusPage {
    var bonuses: seq<Bonus>
    var loading: bool
    var saving: bool
    var message: Message

    constructor()
      ensures bonuses == [] && loading && !saving && message == NoMessage
    {
      bonuses := [];
      loading := true;
      saving := false;
      message := NoMessage;
    }

    /**
     * `fetchBonusData`: a non-empty array is taken as it is; an empty one, a value that
     * is not an array, or a failure gives the default day 1 (a failure also shows an
     * error). The list is never empty afterwards.
     */
    method Load(fetched: Fetched)
      modifies this`bonuses, this`loading, this`message
      ensures fetched.JsonArray? && |fetched.items| > 0 ==> bonuses == fetched.items && message == old(message)
      ensures fetched.JsonArray? && |fetched.items| == 0 ==> bonuses == DefaultBonuses && message == old(message)
      ensures fetched.NotArray? ==> bonuses == DefaultBonuses && message == old(message)
      ensures fetched.Failed? ==>
        bonuses == DefaultBonuses && message == Message("error", "Data load kora jacche na via API.")
      ensures |bonuses| >= 1 && !loading
    {
      if fetched.JsonArray? && |fetched.items| > 0 {
        bonuses := fetched.items;
      } else if fetched.Failed? {
        message := Message("error", "Data load kora jacche na via API.");
        bonuses := DefaultBonuses;
      } else {
        bonuses := DefaultBonuses;
      }
      loading := false;
    }

    /** `handleRewardChange` on row `index`. */
    method RewardChange(index: nat, value: string)
      requires index < |bonuses|
      modifies this`bonuses
      ensures bonuses == WithReward(old(bonuses), index, value)
    {
      var copy := bonuses;
      copy := copy[index := copy[index].(reward := if value == "" then Blank else Amount(ParseInt(value)))];
      bonuses := copy;
    }

    /** `handleAddDay`: the next day with reward 0, and the message cleared. */
    method AddDay()
      modifies this`bonuses, this`message
      ensures bonuses == WithDay(old(bonuses)) && message == NoMessage
    {
      var next := |bonuses| + 1;
      bonuses := bonuses + [Bonus(next, Amount(Some(0)))];
      message := NoMessage;
    }

    /** `handleRemoveDay`: the last day goes unless it is the only one, which shows an error. */
    method RemoveDay()
      modifies this`bonuses, this`message
      ensures bonuses == WithoutDay(old(bonuses))
      ensures message == (if |old(bonuses)| > 1 then NoMessage else Message("error", "Kompokkhe 1 ta day field thakte hobe."))
    {
      if |bonuses| > 1 {
        bonuses := bonuses[..|bonuses| - 1];
        message := NoMessage;
      } else {
        message := Message("error", "Kompokkhe 1 ta day field thakte hobe.");
      }
    }

    /**
     * `handleSave`: with a blank or NaN reward nothing is sent and an error shows;
     * otherwise the whole list is sent as `bonus`, and the answer decides the message.
     */
    method Save(reply: Reply) returns (payload: Option<seq<Bonus>>)
      modifies this`saving, this`message
      ensures payload.Some? <==> AllValid(bonuses)
      ensures payload.Some? ==> payload.value == bonuses
      ensures !AllValid(bonuses) ==> message == Message("error", "Sob gulo field e valid number input din.")
      ensures AllValid(bonuses) ==> message == SaveMessage(reply)
      ensures !saving
    {
      saving := true;
      message := NoMessage;
      var hasInvalid := exists j :: 0 <= j < |bonuses| && Invalid(bonuses[j]);
      if hasInvalid {
        message := Message("error", "Sob gulo field e valid number input din.");
        saving := false;
        return None;
      }
      payload := Some(bonuses);
      message := SaveMessage(reply);
      saving := false;
    }
  }
}
