/** The spending-threshold notifier of the application shell (App.jsx): the
    current-month spend, the exceeded and 80%-approaching flags, the 24-hour
    dismissal of the 80% warning kept in browser storage, the edge-triggered
    alerts, the month-rollover sweep, sign-out and the theme toggle.

    Browser storage is a `map<string, string>`. Toasts become `Event`s that
    the methods return. The network, the identity provider and the GraphQL
    client are not modelled: their outcomes are parameters. */
module Notifier {
  import opened Wrappers
  import opened Text
  import opened Clock
  import opened Records
  import AlertEdge

  // ---------------------------------------------------------------------------
  // Constants and storage keys
  // ---------------------------------------------------------------------------

  const RE_ALERT_DURATION_HOURS: nat := 24
  const MS_PER_HOUR: nat := 1000 * 60 * 60
  /** The re-alert window in milliseconds. */
  const RE_ALERT_WINDOW_MS: nat := RE_ALERT_DURATION_HOURS * MS_PER_HOUR

  const DISMISSAL_PREFIX := "dismissed80PercentWarning_"
  const LAST_MONTH_KEY := "lastDismissed80PercentMonth"
  const THEME_KEY := "theme"

  /** `localStorage.getItem(key)` as the client tests it: a missing key reads
      like the empty string, both being falsy. */
  function GetItem(store: map<string, string>, key: string): string
  {
    if key in store then store[key] else ""
  }

  /** `new Date().toISOString().substring(0, 7)`: the UTC month "YYYY-MM". */
  function MonthKey(now: Instant): string
  {
    Substring(now.iso, 0, 7)
  }

  function DismissalKey(monthKey: string): string
  {
    DISMISSAL_PREFIX + monthKey
  }

  /** Dismissal keys of different months are different, and no dismissal key
      is the last-month key or the theme key. */
  lemma DismissalKeysDistinct(a: string, b: string)
    ensures DismissalKey(a) == DismissalKey(b) <==> a == b
    ensures DismissalKey(a) != LAST_MONTH_KEY && DismissalKey(a) != THEME_KEY
  {
    if DismissalKey(a) == DismissalKey(b) {
      assert a == DismissalKey(a)[|DISMISSAL_PREFIX|..];
      assert b == DismissalKey(b)[|DISMISSAL_PREFIX|..];
    }
    assert DismissalKey(a)[0] == 'd';
  }

  // ---------------------------------------------------------------------------
  // The dismissal record `{"timestamp": ...}`
  // ---------------------------------------------------------------------------

  const RECORD_OPEN := "{\"timestamp\":"
  const RECORD_CLOSE := '}'

  /** The record `dismiss` stores; the timestamp is written as epoch milliseconds. */
  function EncodeRecord(ms: int): string
  {
    RECORD_OPEN + (if ms < 0 then "-" + NatToDigits(-ms) else NatToDigits(ms)) + [RECORD_CLOSE]
  }

  /** `JSON.parse(record).timestamp`; `None` when parsing throws. */
  function DecodeRecord(s: string): Option<int>
  {
    match DropPrefix(s, RECORD_OPEN)
    case None => None
    case Some(rest) =>
      if |rest| < 2 || rest[|rest| - 1] != RECORD_CLOSE then None
      else
        var body := rest[..|rest| - 1];
        var negative := body[0] == '-';
        match ParseDigits(if negative then body[1..] else body)
        case None => None
        case Some(n) => Some(if negative then 0 - n else n)
  }

  lemma RecordRoundTrip(ms: int)
    ensures DecodeRecord(EncodeRecord(ms)) == Some(ms)
    ensures EncodeRecord(ms) != ""
  {
    var digits := if ms < 0 then "-" + NatToDigits(-ms) else NatToDigits(ms);
    var rest := digits + [RECORD_CLOSE];
    assert EncodeRecord(ms) == RECORD_OPEN + rest;
    DropPrefixOf(RECORD_OPEN, rest);
    assert rest[..|rest| - 1] == digits;
    if ms < 0 {
      assert digits[1..] == NatToDigits(-ms);
      DigitsRoundTrip(-ms);
    } else {
      DigitsRoundTrip(ms);
    }
  }

  /** is80PercentWarningDismissedForCurrentMonth (App.jsx:101-118): `Some(d)`
      says whether the month is dismissed; `None` when the stored record does
      not parse (the call throws). It only reads the store. */
  function DismissalState(store: map<string, string>, now: Instant): Option<bool>
  {
    var key := DismissalKey(MonthKey(now));
    if key !in store || store[key] == "" then Some(false)
    else
      match DecodeRecord(store[key])
      case None => None
      case Some(timestamp) => Some(!(now.epochMs - timestamp >= RE_ALERT_WINDOW_MS))
  }

  /** The re-alert window: no record means not dismissed; a record written
      at `dismissedAt` suppresses the warning for less than 24 hours. */
  lemma DismissalWindow(store: map<string, string>, now: Instant, dismissedAt: int)
    ensures DismissalKey(MonthKey(now)) !in store ==> DismissalState(store, now) == Some(false)
    ensures GetItem(store, DismissalKey(MonthKey(now))) == EncodeRecord(dismissedAt) ==>
      DismissalState(store, now) == Some(now.epochMs - dismissedAt < RE_ALERT_WINDOW_MS)
  {
    RecordRoundTrip(dismissedAt);
  }

  // ---------------------------------------------------------------------------
  // Current-month spend
  // ---------------------------------------------------------------------------

  /** The local calendar month of `new Date(date)`, or `None` for an invalid date. */
  type LocalMonthOf = string -> Option<YearMonth>

  predicate InMonth(e: Expense, monthOf: LocalMonthOf, month: YearMonth)
  {
    monthOf(e.date) == Some(month)
  }

  /** One step of the `reduce` at App.jsx:184-194. */
  function SpendStep(sum: int, e: Expense, monthOf: LocalMonthOf, month: YearMonth): int
  {
    match monthOf(e.date)
    case None => sum
    case Some(m) => if m == month then sum + AmountOrZero(e) else sum
  }

  function SpendFold(sum: int, es: seq<Expense>, monthOf: LocalMonthOf, month: YearMonth): int
    decreases |es|
  {
    if |es| == 0 then sum else SpendFold(SpendStep(sum, es[0], monthOf, month), es[1..], monthOf, month)
  }

  /** The current-month spend: the `reduce` from 0, left to right. */
  function MonthSpend(es: seq<Expense>, monthOf: LocalMonthOf, month: YearMonth): int
  {
    SpendFold(0, es, monthOf, month)
  }

  /** The expenses of one local month, in order. */
  function InMonthOnly(es: seq<Expense>, monthOf: LocalMonthOf, month: YearMonth): (r: seq<Expense>)
    ensures forall k :: 0 <= k < |r| ==> InMonth(r[k], monthOf, month)
    ensures |r| <= |es|
  {
    if |es| == 0 then []
    else if InMonth(es[0], monthOf, month) then [es[0]] + InMonthOnly(es[1..], monthOf, month)
    else InMonthOnly(es[1..], monthOf, month)
  }

  lemma {:induction false} SpendFoldIsFilteredSum(sum: int, es: seq<Expense>, monthOf: LocalMonthOf, month: YearMonth)
    ensures SpendFold(sum, es, monthOf, month) == sum + SumAmounts(InMonthOnly(es, monthOf, month))
    decreases |es|
  {
    if |es| > 0 {
      SpendFoldIsFilteredSum(SpendStep(sum, es[0], monthOf, month), es[1..], monthOf, month);
      if InMonth(es[0], monthOf, month) {
        var r := InMonthOnly(es, monthOf, month);
        assert r[1..] == InMonthOnly(es[1..], monthOf, month);
      }
    }
  }

  /** The spend is the sum of the amounts (missing amounts as 0) of exactly
      the expenses whose date parses to the given local month. */
  lemma MonthSpendIsSumInMonth(es: seq<Expense>, monthOf: LocalMonthOf, month: YearMonth)
    ensures MonthSpend(es, monthOf, month) == SumAmounts(InMonthOnly(es, monthOf, month))
  {
    SpendFoldIsFilteredSum(0, es, monthOf, month);
  }

  lemma {:induction false} InMonthOnlyAppend(es: seq<Expense>, fs: seq<Expense>, monthOf: LocalMonthOf, month: YearMonth)
    ensures InMonthOnly(es + fs, monthOf, month) == InMonthOnly(es, monthOf, month) + InMonthOnly(fs, monthOf, month)
  {
    if |es| > 0 {
      assert (es + fs)[1..] == es[1..] + fs;
      InMonthOnlyAppend(es[1..], fs, monthOf, month);
    } else {
      assert es + fs == fs;
    }
  }

  /** An expense with an invalid date or from another month never changes
      the spend; one from this month adds its amount. */
  lemma MonthSpendAppend(es: seq<Expense>, e: Expense, monthOf: LocalMonthOf, month: YearMonth)
    ensures !InMonth(e, monthOf, month) ==> MonthSpend(es + [e], monthOf, month) == MonthSpend(es, monthOf, month)
    ensures InMonth(e, monthOf, month) ==>
      MonthSpend(es + [e], monthOf, month) == MonthSpend(es, monthOf, month) + AmountOrZero(e)
  {
    MonthSpendIsSumInMonth(es + [e], monthOf, month);
    MonthSpendIsSumInMonth(es, monthOf, month);
    InMonthOnlyAppend(es, [e], monthOf, month);
    SumAmountsAppend(InMonthOnly(es, monthOf, month), InMonthOnly([e], monthOf, month));
  }

  // ---------------------------------------------------------------------------
  // The flags
  // ---------------------------------------------------------------------------

  /** `fetchedLimit !== null && fetchedLimit > 0` (false for `NaN`). */
  predicate LimitActive(limit: Option<Num>)
  {
    limit.Some? && limit.value.Finite? && limit.value.v > 0
  }

  function LimitValue(limit: Option<Num>): int
  {
    if limit.Some? && limit.value.Finite? then limit.value.v else 0
  }

  /** `currentExceeded` of App.jsx:201. */
  predicate Exceeded(limit: Option<Num>, spend: int)
  {
    LimitActive(limit) && spend > LimitValue(limit)
  }

  /** Spend at or above 80% of an active limit and below it (App.jsx:206-211),
      with the 80% threshold written exactly as `5 * spend >= 4 * limit`. */
  predicate InApproachBand(limit: Option<Num>, spend: int)
  {
    LimitActive(limit) && 5 * spend >= 4 * LimitValue(limit) && spend < LimitValue(limit)
  }

  /** The approaching flag a completed refresh shows (App.jsx:205-228). */
  predicate ShouldWarn(limit: Option<Num>, spend: int, dismissal: Option<bool>)
  {
    InApproachBand(limit, spend) && dismissal == Some(false)
  }

  /** The two flags exclude each other, and without an active limit neither holds. */
  lemma FlagsExclusive(limit: Option<Num>, spend: int, dismissal: Option<bool>)
    ensures !(ShouldWarn(limit, spend, dismissal) && Exceeded(limit, spend))
    ensures !LimitActive(limit) ==> !ShouldWarn(limit, spend, dismissal) && !Exceeded(limit, spend)
    ensures ShouldWarn(limit, spend, dismissal) ==> 4 * LimitValue(limit) <= 5 * spend < 5 * LimitValue(limit)
  {
  }

  // ---------------------------------------------------------------------------
  // Rollover sweep, sign-out and theme on the store
  // ---------------------------------------------------------------------------

  /** checkMonthAndResetWarning (App.jsx:268-280) on the store. */
  function MonthSweep(store: map<string, string>, currentKey: string): map<string, string>
  {
    var last := GetItem(store, LAST_MONTH_KEY);
    var cleared :=
      if last != "" && last != currentKey then store - {DismissalKey(last), LAST_MONTH_KEY}
      else store;
    cleared[LAST_MONTH_KEY := currentKey]
  }

  /** After the sweep the stored month is the current one; a dismissal of a
      different stored month is gone; the current month's dismissal and every
      other key are untouched; sweeping again changes nothing. */
  lemma MonthSweepProperties(store: map<string, string>, currentKey: string)
    ensures GetItem(MonthSweep(store, currentKey), LAST_MONTH_KEY) == currentKey
    ensures var last := GetItem(store, LAST_MONTH_KEY);
      last != "" && last != currentKey ==> DismissalKey(last) !in MonthSweep(store, currentKey)
    ensures var swept := MonthSweep(store, currentKey);
      var last := GetItem(store, LAST_MONTH_KEY);
      forall k :: k in store && k != LAST_MONTH_KEY && (last != "" && last != currentKey ==> k != DismissalKey(last)) ==>
        k in swept && swept[k] == store[k]
    ensures var current := DismissalKey(currentKey);
      (current in store <==> current in MonthSweep(store, currentKey)) &&
      (current in store ==> MonthSweep(store, currentKey)[current] == store[current])
    ensures MonthSweep(MonthSweep(store, currentKey), currentKey) == MonthSweep(store, currentKey)
  {
    var last := GetItem(store, LAST_MONTH_KEY);
    DismissalKeysDistinct(last, currentKey);
    DismissalKeysDistinct(currentKey, currentKey);
  }

  /** The keys sign-out removes (App.jsx:302-304). */
  function SignOutStore(store: map<string, string>, now: Instant): (r: map<string, string>)
    ensures r.Keys == store.Keys - {DismissalKey(MonthKey(now)), LAST_MONTH_KEY}
    ensures forall k :: k in r ==> r[k] == store[k]
  {
    store - {DismissalKey(MonthKey(now)), LAST_MONTH_KEY}
  }

  lemma SignOutKeepsTheme(store: map<string, string>, now: Instant)
    ensures GetItem(store, THEME_KEY) == GetItem(SignOutStore(store, now), THEME_KEY)
  {
    DismissalKeysDistinct(MonthKey(now), MonthKey(now));
  }

  /** `prevTheme === 'light' ? 'dark' : 'light'` (App.jsx:139). */
  function ToggledTheme(theme: string): string
  {
    if theme == "light" then "dark" else "light"
  }

  /** The toggle swaps light and dark, so it is its own inverse on them; any
      other stored theme becomes light. */
  lemma ToggleThemeInvolution(theme: string)
    ensures theme == "light" || theme == "dark" ==> ToggledTheme(ToggledTheme(theme)) == theme
    ensures ToggledTheme(theme) != theme
    ensures theme != "light" ==> ToggledTheme(theme) == "light"
  {
  }

  /** `localStorage.getItem('theme') || 'light'` (App.jsx:81-83). */
  function StoredTheme(store: map<string, string>): string
  {
    if GetItem(store, THEME_KEY) == "" then "light" else store[THEME_KEY]
  }

  // ---------------------------------------------------------------------------
  // One data refresh
  // ---------------------------------------------------------------------------

  /** What the presentation layer is told (toasts in the client). */
  datatype Event =
    | ApproachingEntered(spend: int, limit: int)
    | ExceededEntered(spend: int, limit: int)
    | WarningDismissed
    | FetchFailed(reason: string)
    | SignedOut
    | SignOutFailed

  /** How far one refresh gets before it returns or throws. */
  datatype Stage =
    | NotConfigured      // early return at App.jsx:166-169
    | UserFailed         // getCurrentUser threw
    | ListingFailed      // the GraphQL listing threw
    | LimitFailed        // the limit request threw
    | DismissalUnreadable // the dismissal record did not parse
    | Completed

  function Rank(s: Stage): nat
  {
    match s
    case NotConfigured => 0
    case UserFailed => 1
    case ListingFailed => 2
    case LimitFailed => 3
    case DismissalUnreadable => 4
    case Completed => 5
  }

  /** `expensesData?.listExpenses?.items || []`. */
  function Items(listing: Option<seq<Expense>>): seq<Expense>
  {
    listing.GetOr([])
  }

  function StageOf(
    configured: bool, user: Result<Option<string>, string>,
    listing: Result<Option<seq<Expense>>, string>, limit: Result<Option<Num>, string>,
    store: map<string, string>, now: Instant, monthOf: LocalMonthOf): Stage
  {
    if !configured then NotConfigured
    else if user.Err? then UserFailed
    else if listing.Err? then ListingFailed
    else if limit.Err? then LimitFailed
    else if InApproachBand(limit.value, MonthSpend(Items(listing.value), monthOf, now.local))
         && DismissalState(store, now).None? then DismissalUnreadable
    else Completed
  }

  /** The signed-in e-mail after `getCurrentUser` returned `user`: a non-empty
      login id replaces the old one. */
  function EmailAfter(old_: string, user: Option<string>): string
  {
    if user.Some? && user.value != "" then user.value else old_
  }

  const UNREADABLE_RECORD := "unreadable dismissal record"

  /** The message of the first collaborator that threw. */
  function FailureReason(
    user: Result<Option<string>, string>, listing: Result<Option<seq<Expense>>, string>,
    limit: Result<Option<Num>, string>): string
  {
    if user.Err? then user.error
    else if listing.Err? then listing.error
    else if limit.Err? then limit.error
    else UNREADABLE_RECORD
  }

  /** The alerts of a completed refresh: the 80% alert first, then the exceeded one. */
  function Alerts(warn: AlertEdge.Step, exceed: AlertEdge.Step, spend: int, limit: int): seq<Event>
  {
    (if warn.fired then [ApproachingEntered(spend, limit)] else [])
    + (if exceed.fired then [ExceededEntered(spend, limit)] else [])
  }

  class App {
    var store: map<string, string>
    var isAuthenticated: bool
    var expenses: seq<Expense>
    var spendingLimit: Option<Num>
    var currentMonthSpending: int
    var isLimitExceeded: bool
    var currentUserEmail: string
    var theme: string
    /** `is80PercentWarningActive`: the warning icon is shown. */
    var warningActive: bool
    // The refs of App.jsx:88-93.
    var prevSpending: int
    var prevLimit: Option<Num>
    var prevExceeded: bool
    var prevWarningActive: bool

    /** The initial state, then the mount effect that writes the theme back. */
    constructor (initialStore: map<string, string>)
      ensures theme == StoredTheme(initialStore)
      ensures store == initialStore[THEME_KEY := theme]
      ensures !isAuthenticated && expenses == [] && spendingLimit == None
      ensures currentMonthSpending == 0 && !isLimitExceeded && currentUserEmail == ""
      ensures !warningActive && prevSpending == 0 && prevLimit == None
      ensures !prevExceeded && !prevWarningActive
    {
      theme := StoredTheme(initialStore);
      store := initialStore[THEME_KEY := StoredTheme(initialStore)];
      isAuthenticated := false;
      expenses := [];
      spendingLimit := None;
      currentMonthSpending := 0;
      isLimitExceeded := false;
      currentUserEmail := "";
      warningActive := false;
      prevSpending, prevLimit, prevExceeded, prevWarningActive := 0, None, false, false;
    }

    /** The memory of the 80% alert: the icon state and its ref. */
    function WarningMemory(): AlertEdge.Memory
      reads this
    {
      AlertEdge.Memory(warningActive, prevWarningActive)
    }

    /** The memory of the exceeded alert: the flag and its ref. */
    function ExceededMemory(): AlertEdge.Memory
      reads this
    {
      AlertEdge.Memory(isLimitExceeded, prevExceeded)
    }

    /** fetchAllData (App.jsx:159-244). The collaborators' outcomes are inputs:
        `configured` for the configuration check, `user` for getCurrentUser
        (the login id, if any), `listing` for the GraphQL listing (the items,
        if any), `limit` for the limit request after `parseFloat` (`None` for
        `null`). State set before a later failure stays set, as in the client;
        the warning flag and the refs change only on a completed refresh. */
    method Refresh(
      now: Instant, monthOf: LocalMonthOf, configured: bool,
      user: Result<Option<string>, string>,
      listing: Result<Option<seq<Expense>>, string>,
      limit: Result<Option<Num>, string>)
      returns (exceeded: bool, events: seq<Event>)
      modifies this
      ensures store == old(store) && theme == old(theme)
      ensures StageOf(configured, user, listing, limit, store, now, monthOf) == NotConfigured ==>
        unchanged(this) && !exceeded && events == []
      ensures Rank(StageOf(configured, user, listing, limit, store, now, monthOf)) >= 2 ==>
        currentUserEmail == EmailAfter(old(currentUserEmail), user.value)
      ensures Rank(StageOf(configured, user, listing, limit, store, now, monthOf)) < 2 ==>
        currentUserEmail == old(currentUserEmail)
      ensures Rank(StageOf(configured, user, listing, limit, store, now, monthOf)) >= 3 ==>
        expenses == Items(listing.value) &&
        currentMonthSpending == MonthSpend(Items(listing.value), monthOf, now.local)
      ensures Rank(StageOf(configured, user, listing, limit, store, now, monthOf)) < 3 ==>
        expenses == old(expenses) && currentMonthSpending == old(currentMonthSpending)
      ensures Rank(StageOf(configured, user, listing, limit, store, now, monthOf)) >= 4 ==>
        spendingLimit == limit.value && isLimitExceeded == Exceeded(limit.value, currentMonthSpending)
      ensures Rank(StageOf(configured, user, listing, limit, store, now, monthOf)) < 4 ==>
        spendingLimit == old(spendingLimit) && isLimitExceeded == old(isLimitExceeded)
      ensures 1 <= Rank(StageOf(configured, user, listing, limit, store, now, monthOf)) < 5 ==>
        && !isAuthenticated && !exceeded
        && events == [FetchFailed(FailureReason(user, listing, limit))]
        && WarningMemory() == old(WarningMemory())
        && prevExceeded == old(prevExceeded)
        && prevSpending == old(prevSpending) && prevLimit == old(prevLimit)
      ensures StageOf(configured, user, listing, limit, store, now, monthOf) == Completed ==>
        var active := ShouldWarn(limit.value, currentMonthSpending, DismissalState(store, now));
        var warn := AlertEdge.StepAsWritten(old(WarningMemory()), active);
        var exceed := AlertEdge.StepFresh(old(ExceededMemory()), isLimitExceeded);
        && isAuthenticated
        && exceeded == isLimitExceeded
        && WarningMemory() == warn.next
        && ExceededMemory() == exceed.next
        && prevSpending == currentMonthSpending && prevLimit == limit.value
        && events == Alerts(warn, exceed, currentMonthSpending, LimitValue(limit.value))
    {
      events := [];
      if !configured {
        return false, [];
      }

      if user.Err? {
        exceeded, events := Fail(user.error);
        return;
      }
      if user.value.Some? && user.value.value != "" {
        currentUserEmail := user.value.value;
      }

      if listing.Err? {
        exceeded, events := Fail(listing.error);
        return;
      }
      var fetched := Items(listing.value);
      expenses := fetched;
      currentMonthSpending := MonthSpend(fetched, monthOf, now.local);

      if limit.Err? {
        exceeded, events := Fail(limit.error);
        return;
      }
      exceeded, events := ApplyLimit(now, limit.value);
    }

    /** The part of fetchAllData after the limit arrived (App.jsx:201-237):
        the exceeded flag, the 80% warning, the alerts and the refs. An
        unreadable dismissal record throws into the catch block. */
    method ApplyLimit(now: Instant, fetchedLimit: Option<Num>) returns (exceeded: bool, events: seq<Event>)
      modifies this
      ensures store == old(store) && theme == old(theme) && currentUserEmail == old(currentUserEmail)
      ensures expenses == old(expenses) && currentMonthSpending == old(currentMonthSpending)
      ensures spendingLimit == fetchedLimit
      ensures isLimitExceeded == Exceeded(fetchedLimit, currentMonthSpending)
      ensures InApproachBand(fetchedLimit, currentMonthSpending) && DismissalState(store, now).None? ==>
        && !isAuthenticated && !exceeded
        && events == [FetchFailed(UNREADABLE_RECORD)]
        && WarningMemory() == old(WarningMemory())
        && prevExceeded == old(prevExceeded)
        && prevSpending == old(prevSpending) && prevLimit == old(prevLimit)
      ensures !(InApproachBand(fetchedLimit, currentMonthSpending) && DismissalState(store, now).None?) ==>
        var active := ShouldWarn(fetchedLimit, currentMonthSpending, DismissalState(store, now));
        var warn := AlertEdge.StepAsWritten(old(WarningMemory()), active);
        var exceed := AlertEdge.StepFresh(old(ExceededMemory()), isLimitExceeded);
        && isAuthenticated
        && exceeded == isLimitExceeded
        && WarningMemory() == warn.next
        && ExceededMemory() == exceed.next
        && prevSpending == currentMonthSpending && prevLimit == fetchedLimit
        && events == Alerts(warn, exceed, currentMonthSpending, LimitValue(fetchedLimit))
    {
      spendingLimit := fetchedLimit;
      isLimitExceeded := Exceeded(fetchedLimit, currentMonthSpending);

      var shouldBeActive := false;
      if LimitActive(fetchedLimit) && InApproachBand(fetchedLimit, currentMonthSpending) {
        var dismissal := DismissalState(store, now);
        if dismissal.None? {
          exceeded, events := Fail(UNREADABLE_RECORD);
          return;
        }
        shouldBeActive := !dismissal.value;
      }
      exceeded, events := Settle(shouldBeActive);
    }

    /** The end of a completed fetchAllData (App.jsx:205-237) once the 80%
        flag `active` is known: the icon, the two alerts and the refs. */
    method Settle(active: bool) returns (exceeded: bool, events: seq<Event>)
      requires active ==> InApproachBand(spendingLimit, currentMonthSpending)
      requires isLimitExceeded == Exceeded(spendingLimit, currentMonthSpending)
      modifies this`warningActive, this`isAuthenticated
      modifies this`prevSpending, this`prevLimit, this`prevExceeded, this`prevWarningActive
      ensures
        var warn := AlertEdge.StepAsWritten(old(WarningMemory()), active);
        var exceed := AlertEdge.StepFresh(old(ExceededMemory()), isLimitExceeded);
        && isAuthenticated
        && exceeded == isLimitExceeded
        && WarningMemory() == warn.next
        && ExceededMemory() == exceed.next
        && prevSpending == currentMonthSpending && prevLimit == spendingLimit
        && events == Alerts(warn, exceed, currentMonthSpending, LimitValue(spendingLimit))
    {
      // The callback reads the refs and its captured state first.
      var wasWarning := prevWarningActive;
      var wasExceeded := prevExceeded;
      var warningBefore := warningActive;
      var spending := currentMonthSpending;
      events := [];

      if LimitActive(spendingLimit) {
        warningActive := active;
        if active && !wasWarning {
          events := events + [ApproachingEntered(spending, LimitValue(spendingLimit))];
        }
        if isLimitExceeded && !wasExceeded {
          events := events + [ExceededEntered(spending, LimitValue(spendingLimit))];
        }
      } else {
        warningActive := false;
      }

      prevSpending := spending;
      prevLimit := spendingLimit;
      prevExceeded := isLimitExceeded;
      // App.jsx:234 stores the state read before this refresh, not `active`.
      prevWarningActive := warningBefore;

      isAuthenticated := true;
      exceeded := isLimitExceeded;
    }

    /** The catch block of fetchAllData (App.jsx:238-243). */
    method Fail(reason: string) returns (exceeded: bool, events: seq<Event>)
      modifies this`isAuthenticated
      ensures !isAuthenticated && !exceeded && events == [FetchFailed(reason)]
    {
      isAuthenticated := false;
      exceeded := false;
      events := [FetchFailed(reason)];
    }

    /** dismiss80PercentWarning (App.jsx:121-126): record the dismissal of the
        current UTC month at `now` and hide the icon at once. */
    method Dismiss(now: Instant) returns (events: seq<Event>)
      modifies this`store, this`warningActive
      ensures store == old(store)[DismissalKey(MonthKey(now)) := EncodeRecord(now.epochMs)]
      ensures !warningActive
      ensures DismissalState(store, now) == Some(true)
      ensures events == [WarningDismissed]
    {
      var monthKey := MonthKey(now);
      store := store[DismissalKey(monthKey) := EncodeRecord(now.epochMs)];
      warningActive := false;
      DismissalWindow(store, now, now.epochMs);
      events := [WarningDismissed];
    }

    /** checkMonthAndResetWarning (App.jsx:268-282), run once on mount. */
    method SweepMonth(now: Instant)
      modifies this`store
      ensures store == MonthSweep(old(store), MonthKey(now))
    {
      var currentMonthKey := MonthKey(now);
      var lastDismissedMonthKey := GetItem(store, LAST_MONTH_KEY);
      if lastDismissedMonthKey != "" && lastDismissedMonthKey != currentMonthKey {
        store := store - {DismissalKey(lastDismissedMonthKey)};
        store := store - {LAST_MONTH_KEY};
      }
      store := store[LAST_MONTH_KEY := currentMonthKey];
    }

    /** handleSignOut (App.jsx:285-310). `signOutOk` is the outcome of the
        identity provider's sign-out; when it throws, nothing is reset. */
    method SignOut(now: Instant, signOutOk: bool) returns (events: seq<Event>)
      modifies this
      ensures !signOutOk ==> unchanged(this) && events == [SignOutFailed]
      ensures signOutOk ==>
        && !isAuthenticated && expenses == [] && spendingLimit == None
        && currentMonthSpending == 0 && !isLimitExceeded && currentUserEmail == ""
        && !warningActive
        && prevSpending == 0 && prevLimit == None && !prevExceeded && !prevWarningActive
        && store == SignOutStore(old(store), now)
        && theme == old(theme)
        && events == [SignedOut]
    {
      if !signOutOk {
        return [SignOutFailed];
      }
      isAuthenticated := false;
      expenses := [];
      spendingLimit := None;
      currentMonthSpending := 0;
      isLimitExceeded := false;
      currentUserEmail := "";
      warningActive := false;
      prevSpending := 0;
      prevLimit := None;
      prevExceeded := false;
      prevWarningActive := false;
      store := SignOutStore(store, now);
      events := [SignedOut];
    }

    /** toggleTheme (App.jsx:138-140) followed by the effect that persists
        the theme (App.jsx:128-136). */
    method ToggleTheme()
      modifies this`theme, this`store
      ensures theme == ToggledTheme(old(theme))
      ensures store == old(store)[THEME_KEY := theme]
    {
      theme := ToggledTheme(theme);
      store := store[THEME_KEY := theme];
    }
  }
}
