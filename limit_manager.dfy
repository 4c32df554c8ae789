/** The spending-limit panel (SpendingLimitManager.jsx): the locally edited
    limit, setting a new limit, asking the backend to check the limit, and
    the "remaining" figure. */
module LimitManager {
  import opened Wrappers
  import opened Records
  import Notifier

  /** The `limit` state: the empty string or a number (possibly `NaN`). */
  datatype LimitInput = Blank | Number(n: Num)

  /** The body of the `setLimit` request. */
  datatype SetLimitRequest = SetLimitRequest(action: string, limitAmount: int, userEmail: string)

  /** The body of the `checkLimit` request. */
  datatype CheckLimitRequest = CheckLimitRequest(action: string, currentMonthSpending: int, userEmail: string)

  /** What the presentation layer is told (toasts in the client), and the
      calls back into the data refresh. */
  datatype Event =
    | InvalidLimit
    | LimitSaved
    | SetLimitFailed(message: string)
    | LimitExceededNotified
    | WithinLimit
    | CheckFailed(message: string)
    | RefreshRequested

  const SET_LIMIT := "setLimit"
  const CHECK_LIMIT := "checkLimit"

  /** `parseFloat(limit)`: the empty string is `NaN`, a number is itself. */
  function ParsedLimit(limit: LimitInput): Num
  {
    match limit
    case Blank => NaN
    case Number(n) => n
  }

  /** The validation of handleSetLimit (SpendingLimitManager.jsx:52): a
      finite, positive amount. */
  predicate ValidLimit(limit: LimitInput)
  {
    ParsedLimit(limit).Finite? && ParsedLimit(limit).v > 0
  }

  /** `isLimitSet` (SpendingLimitManager.jsx:106): a number above 0. */
  predicate IsLimitSet(spendingLimit: Option<Num>)
  {
    spendingLimit.Some? && spendingLimit.value.Finite? && spendingLimit.value.v > 0
  }

  /** `remaining` (SpendingLimitManager.jsx:107): `null` without a limit. */
  function Remaining(spendingLimit: Option<Num>, spend: int): (r: Option<int>)
    ensures r.Some? <==> IsLimitSet(spendingLimit)
    ensures r.Some? ==> r.value + spend == spendingLimit.value.v
  {
    if IsLimitSet(spendingLimit) then Some(spendingLimit.value.v - spend) else None
  }

  /** The red styling of SpendingLimitManager.jsx:123. */
  predicate RemainingIsRed(spendingLimit: Option<Num>, spend: int)
  {
    Remaining(spendingLimit, spend).Some? && Remaining(spendingLimit, spend).value < 0
  }

  /** The panel and the application agree: a limit is set exactly when the
      application treats it as active, and the remaining amount is shown in
      red exactly when the application flags the limit as exceeded. */
  lemma RemainingMatchesExceeded(spendingLimit: Option<Num>, spend: int)
    ensures IsLimitSet(spendingLimit) <==> Notifier.LimitActive(spendingLimit)
    ensures RemainingIsRed(spendingLimit, spend) <==> Notifier.Exceeded(spendingLimit, spend)
    ensures Remaining(spendingLimit, spend).Some? ==>
      (Remaining(spendingLimit, spend).value >= 0 <==> !Notifier.Exceeded(spendingLimit, spend))
  {
  }

  /** `parseFloat(value) || ''`: `NaN` and 0 (both falsy) clear the field. */
  function InputValue(parsed: Num): (r: LimitInput)
    ensures r.Blank? <==> (parsed.NaN? || parsed == Finite(0))
    ensures r.Number? ==> r.n == parsed
  {
    if parsed.NaN? || parsed == Finite(0) then Blank else Number(parsed)
  }

  /** Whatever the user types, a number kept in the field is never 0 or `NaN`. */
  lemma InputNeverZeroOrNaN(parsed: Num)
    ensures InputValue(parsed).Number? ==> InputValue(parsed).n.Finite? && InputValue(parsed).n.v != 0
  {
  }

  class Panel {
    var limit: LimitInput
    var isSettingLimit: bool
    var isCheckingLimit: bool

    /** `useState(spendingLimit !== null ? spendingLimit : '')`. */
    constructor (spendingLimit: Option<Num>)
      ensures spendingLimit.None? ==> limit == Blank
      ensures spendingLimit.Some? ==> limit == Number(spendingLimit.value)
      ensures !isSettingLimit && !isCheckingLimit
    {
      limit := if spendingLimit.Some? then Number(spendingLimit.value) else Blank;
      isSettingLimit := false;
      isCheckingLimit := false;
    }

    /** The effect of SpendingLimitManager.jsx:42-46 when the limit prop
        changes: `!==` is true for `NaN`, so a `NaN` prop is written again. */
    method SyncFromProp(spendingLimit: Option<Num>)
      modifies this`limit
      ensures spendingLimit.None? ==> limit == old(limit)
      ensures spendingLimit.Some? ==> limit == Number(spendingLimit.value)
    {
      if spendingLimit.Some? && (limit != Number(spendingLimit.value) || spendingLimit.value.NaN?) {
        limit := Number(spendingLimit.value);
      }
    }

    /** The limit input's change handler (SpendingLimitManager.jsx:140);
        `parsed` is what `parseFloat` makes of the typed text. */
    method OnLimitInput(parsed: Num)
      modifies this`limit
      ensures limit == InputValue(parsed)
    {
      limit := InputValue(parsed);
    }

    /** handleSetLimit (SpendingLimitManager.jsx:49-72). `outcome` is how the
        request and the refresh after it end: `Err` with the message of the
        error thrown. */
    method SetLimit(currentUserEmail: string, outcome: Result<(), string>)
      returns (request: Option<SetLimitRequest>, events: seq<Event>)
      modifies this`isSettingLimit
      ensures !isSettingLimit
      ensures SetLimitEnabled(isSettingLimit, currentUserEmail) <==> currentUserEmail != ""
      ensures !ValidLimit(limit) ==> request == None && events == [InvalidLimit]
      ensures ValidLimit(limit) ==>
        request == Some(SetLimitRequest(SET_LIMIT, ParsedLimit(limit).v, currentUserEmail))
      ensures ValidLimit(limit) && outcome.Ok? ==> events == [LimitSaved, RefreshRequested]
      ensures ValidLimit(limit) && outcome.Err? ==> events == [SetLimitFailed(outcome.error)]
    {
      isSettingLimit := true;
      var parsed := ParsedLimit(limit);
      if parsed.NaN? || parsed.v <= 0 {
        events := [InvalidLimit];
        isSettingLimit := false;
        return None, events;
      }
      request := Some(SetLimitRequest(SET_LIMIT, parsed.v, currentUserEmail));
      if outcome.Ok? {
        events := [LimitSaved, RefreshRequested];
      } else {
        events := [SetLimitFailed(outcome.error)];
      }
      isSettingLimit := false;
    }

    /** checkSpendingLimit (SpendingLimitManager.jsx:74-96). `response` is
        the backend's `limitExceeded` answer, or the message of the error. */
    method CheckSpendingLimit(currentMonthSpending: int, currentUserEmail: string, response: Result<bool, string>)
      returns (request: CheckLimitRequest, events: seq<Event>)
      modifies this`isCheckingLimit
      ensures !isCheckingLimit
      ensures request == CheckLimitRequest(CHECK_LIMIT, currentMonthSpending, currentUserEmail)
      ensures response.Ok? && response.value ==> events == [LimitExceededNotified, RefreshRequested]
      ensures response.Ok? && !response.value ==> events == [WithinLimit, RefreshRequested]
      ensures response.Err? ==> events == [CheckFailed(response.error)]
    {
      isCheckingLimit := true;
      request := CheckLimitRequest(CHECK_LIMIT, currentMonthSpending, currentUserEmail);
      match response {
        case Ok(exceeded) =>
          events := [if exceeded then LimitExceededNotified else WithinLimit, RefreshRequested];
        case Err(message) =>
          events := [CheckFailed(message)];
      }
      isCheckingLimit := false;
    }
  }

  /** The "Set Limit" button (SpendingLimitManager.jsx:152). */
  predicate SetLimitEnabled(isSettingLimit: bool, currentUserEmail: string)
  {
    !isSettingLimit && currentUserEmail != ""
  }

  /** The "Check" button is rendered only with a limit set (SpendingLimitManager.jsx:158-163). */
  predicate CheckEnabled(spendingLimit: Option<Num>, isCheckingLimit: bool, currentUserEmail: string)
  {
    IsLimitSet(spendingLimit) && !isCheckingLimit && currentUserEmail != ""
  }

  /** A check can only be started while the remaining amount is shown, that
      is with a positive limit the application treats as active, and for a
      signed-in user. */
  lemma CheckOnlyWithLimit(spendingLimit: Option<Num>, isCheckingLimit: bool, currentUserEmail: string, spend: int)
    ensures CheckEnabled(spendingLimit, isCheckingLimit, currentUserEmail) ==>
      Remaining(spendingLimit, spend).Some? && Notifier.LimitActive(spendingLimit) && currentUserEmail != ""
    ensures !isCheckingLimit && currentUserEmail != "" ==>
      (CheckEnabled(spendingLimit, isCheckingLimit, currentUserEmail) <==> Remaining(spendingLimit, spend).Some?)
  {
  }
}
