/** The expense list (ExpenseList.jsx): the query path built from the
    filters, page slicing and the page navigation. */
module ExpenseList {
  import opened Wrappers
  import opened Text
  import opened Records

  const ITEMS_PER_PAGE := 5
  const ALL_CATEGORIES := "All"
  const EXPENSES_PATH := "/expenses"
  const CATEGORY_PARAM := "category="
  const START_PARAM := "startDate="
  const END_PARAM := "endDate="

  /** The three filters of the list. */
  datatype Filters = Filters(category: string, startDate: string, endDate: string)

  const NO_FILTERS := Filters(ALL_CATEGORIES, "", "")

  // ---------------------------------------------------------------------------
  // The query path
  // ---------------------------------------------------------------------------

  /** The query parameters fetchExpenses pushes, in push order. */
  function Params(f: Filters): seq<string>
  {
    (if f.category != ALL_CATEGORIES then [CATEGORY_PARAM + f.category] else [])
    + (if f.startDate != "" then [START_PARAM + f.startDate] else [])
    + (if f.endDate != "" then [END_PARAM + f.endDate] else [])
  }

  /** The path requested for the filters: `/expenses`, then `?` and the
      parameters joined by `&` when there is at least one. */
  function PathOf(f: Filters): string
  {
    var params := Params(f);
    EXPENSES_PATH + (if |params| > 0 then "?" + Join(params, '&') else "")
  }

  /** The filters one `name=value` parameter sets on top of `f`. */
  function ReadParam(part: string, f: Filters): Option<Filters>
  {
    match DropPrefix(part, CATEGORY_PARAM)
    case Some(v) => Some(f.(category := v))
    case None =>
      match DropPrefix(part, START_PARAM)
      case Some(v) => Some(f.(startDate := v))
      case None =>
        match DropPrefix(part, END_PARAM)
        case Some(v) => Some(f.(endDate := v))
        case None => None
  }

  function ReadParams(parts: seq<string>, f: Filters): Option<Filters>
  {
    if |parts| == 0 then Some(f)
    else match ReadParam(parts[0], f)
      case Some(g) => ReadParams(parts[1..], g)
      case None => None
  }

  /** How the backend reads a path back into filters (absent parameters
      mean no filter); `None` for a path this client never builds. */
  function ParsePath(path: string): Option<Filters>
  {
    match DropPrefix(path, EXPENSES_PATH)
    case None => None
    case Some(rest) =>
      if rest == "" then Some(NO_FILTERS)
      else if rest[0] == '?' then ReadParams(Split(rest[1..], '&'), NO_FILTERS)
      else None
  }

  predicate NoAmpersand(f: Filters)
  {
    '&' !in f.category && '&' !in f.startDate && '&' !in f.endDate
  }

  lemma DropPrefixMismatch(s: string, p: string)
    requires |s| > 0 && |p| > 0 && s[0] != p[0]
    ensures DropPrefix(s, p) == None
  {
  }

  lemma ReadEachParam(f: Filters, v: string)
    ensures ReadParam(CATEGORY_PARAM + v, f) == Some(f.(category := v))
    ensures ReadParam(START_PARAM + v, f) == Some(f.(startDate := v))
    ensures ReadParam(END_PARAM + v, f) == Some(f.(endDate := v))
  {
    DropPrefixOf(CATEGORY_PARAM, v);
    DropPrefixOf(START_PARAM, v);
    DropPrefixOf(END_PARAM, v);
    DropPrefixMismatch(START_PARAM + v, CATEGORY_PARAM);
    DropPrefixMismatch(END_PARAM + v, CATEGORY_PARAM);
    DropPrefixMismatch(END_PARAM + v, START_PARAM);
  }

  lemma ReadParamsCons(part: string, rest: seq<string>, f: Filters, g: Filters)
    requires ReadParam(part, f) == Some(g)
    ensures ReadParams([part] + rest, f) == ReadParams(rest, g)
  {
    assert ([part] + rest)[1..] == rest;
  }

  /** Reading the pushed parameters back, in order, gives the filters. */
  lemma ReadParamsOfParams(f: Filters)
    ensures ReadParams(Params(f), NO_FILTERS) == Some(f)
  {
    var a := if f.category != ALL_CATEGORIES then [CATEGORY_PARAM + f.category] else [];
    var b := if f.startDate != "" then [START_PARAM + f.startDate] else [];
    var c := if f.endDate != "" then [END_PARAM + f.endDate] else [];
    var g1 := Filters(f.category, "", "");
    var g2 := Filters(f.category, f.startDate, "");
    assert Params(f) == a + (b + c);
    if |a| > 0 {
      ReadEachParam(NO_FILTERS, f.category);
      ReadParamsCons(a[0], b + c, NO_FILTERS, g1);
    }
    if |b| > 0 {
      ReadEachParam(g1, f.startDate);
      ReadParamsCons(b[0], c, g1, g2);
    }
    if |c| > 0 {
      ReadEachParam(g2, f.endDate);
      ReadParamsCons(c[0], [], g2, f);
    }
  }

  /** The path carries the filters faithfully as long as no value contains
      the separator `&` (values are not URL-encoded). */
  lemma PathRoundTrip(f: Filters)
    requires NoAmpersand(f)
    ensures ParsePath(PathOf(f)) == Some(f)
  {
    var params := Params(f);
    var query := if |params| > 0 then "?" + Join(params, '&') else "";
    DropPrefixOf(EXPENSES_PATH, query);
    ReadParamsOfParams(f);
    if |params| > 0 {
      assert query[1..] == Join(params, '&');
      forall k | 0 <= k < |params| ensures '&' !in params[k] {
        assert params[k] == CATEGORY_PARAM + f.category || params[k] == START_PARAM + f.startDate
          || params[k] == END_PARAM + f.endDate;
      }
      SplitJoin(params, '&');
    }
  }

  /** The bare path is requested exactly when no filter is set. */
  lemma BarePathIffNoFilter(f: Filters)
    ensures PathOf(f) == EXPENSES_PATH <==> f == NO_FILTERS
  {
    var params := Params(f);
    if |params| > 0 {
      assert |PathOf(f)| > |EXPENSES_PATH|;
    }
  }

  // ---------------------------------------------------------------------------
  // Pagination
  // ---------------------------------------------------------------------------

  function Min(a: int, b: int): int { if a < b then a else b }
  function Max(a: int, b: int): int { if a < b then b else a }

  /** A `slice` bound: negative counts from the end, then clamped to the length. */
  function SliceBound(n: nat, x: int): (r: nat)
    ensures r <= n
  {
    if x < 0 then Max(n + x, 0) else Min(x, n)
  }

  /** `s.slice(start, end)`: empty when the bounds cross. */
  function JsSlice<T>(s: seq<T>, start: int, end: int): seq<T>
  {
    var from := SliceBound(|s|, start);
    var to := SliceBound(|s|, end);
    if from < to then s[from..to] else []
  }

  /** `currentExpenses`: the items of page `page`, none while nothing is loaded. */
  function PageItems(expenses: Option<seq<Expense>>, page: int): seq<Expense>
  {
    match expenses
    case None => []
    case Some(list) => JsSlice(list, page * ITEMS_PER_PAGE - ITEMS_PER_PAGE, page * ITEMS_PER_PAGE)
  }

  /** `Math.ceil(expenses.length / itemsPerPage)`, 0 while nothing is loaded. */
  function TotalPages(expenses: Option<seq<Expense>>): nat
  {
    match expenses
    case None => 0
    case Some(list) => (|list| + ITEMS_PER_PAGE - 1) / ITEMS_PER_PAGE
  }

  /** Whatever the page number, a page holds at most five expenses. */
  lemma PageAtMostFive(expenses: Option<seq<Expense>>, page: int)
    ensures |PageItems(expenses, page)| <= ITEMS_PER_PAGE
  {
  }

  /** Page `p` (from 1) is the window `[(p-1)*5, p*5)` of the list, clamped. */
  lemma PageWindow(list: seq<Expense>, page: int)
    requires page >= 1
    ensures PageItems(Some(list), page) ==
      list[Min((page - 1) * ITEMS_PER_PAGE, |list|)..Min(page * ITEMS_PER_PAGE, |list|)]
  {
  }

  /** `totalPages` is the ceiling of a fifth of the length: the pages are
      exactly enough, none of them is empty, and past them there is nothing. */
  lemma TotalPagesExact(list: seq<Expense>, page: int)
    ensures |list| == 0 ==> TotalPages(Some(list)) == 0
    ensures |list| > 0 ==>
      (TotalPages(Some(list)) - 1) * ITEMS_PER_PAGE < |list| <= TotalPages(Some(list)) * ITEMS_PER_PAGE
    ensures 1 <= page <= TotalPages(Some(list)) ==> |PageItems(Some(list), page)| >= 1
    ensures page > TotalPages(Some(list)) ==> PageItems(Some(list), page) == []
  {
  }

  /** Pages 1 to `k` in order. */
  function PagesUpTo(list: seq<Expense>, k: nat): seq<Expense>
  {
    if k == 0 then [] else PagesUpTo(list, k - 1) + PageItems(Some(list), k)
  }

  lemma {:induction false} PagesUpToPrefix(list: seq<Expense>, k: nat)
    ensures PagesUpTo(list, k) == list[..Min(k * ITEMS_PER_PAGE, |list|)]
  {
    if k > 0 {
      PagesUpToPrefix(list, k - 1);
      PageWindow(list, k);
    }
  }

  /** Reading pages 1 to `totalPages` in order gives back the whole list. */
  lemma PagesCoverList(list: seq<Expense>)
    ensures PagesUpTo(list, TotalPages(Some(list))) == list
  {
    TotalPagesExact(list, 0);
    PagesUpToPrefix(list, TotalPages(Some(list)));
  }

  /** The navigation is rendered only with more than one page. */
  predicate NavShown(totalPages: int) { totalPages > 1 }

  /** The page navigation appears exactly when the list has more than one
      page's worth of expenses; never while there is no data. */
  lemma NavShownIffMoreThanOnePage(list: seq<Expense>)
    ensures NavShown(TotalPages(Some(list))) <==> |list| > ITEMS_PER_PAGE
    ensures !NavShown(TotalPages(None))
  {
    TotalPagesExact(list, 1);
  }
  predicate PreviousDisabled(page: int) { page == 1 }
  predicate NextDisabled(page: int, totalPages: int) { page == totalPages }

  // ---------------------------------------------------------------------------
  // The list's state
  // ---------------------------------------------------------------------------

  class ListState {
    var currentPage: int
    var filterCategory: string
    var filterStartDate: string
    var filterEndDate: string

    constructor ()
      ensures currentPage == 1 && Current() == NO_FILTERS
    {
      currentPage := 1;
      filterCategory := ALL_CATEGORIES;
      filterStartDate := "";
      filterEndDate := "";
    }

    function Current(): Filters
      reads this
    {
      Filters(filterCategory, filterStartDate, filterEndDate)
    }

    /** The category select (ExpenseList.jsx:143-146). */
    method SetCategory(value: string)
      modifies this
      ensures Current() == old(Current()).(category := value)
      ensures currentPage == 1
    {
      filterCategory := value;
      currentPage := 1;
    }

    /** The start-date input (ExpenseList.jsx:160-163). */
    method SetStartDate(value: string)
      modifies this
      ensures Current() == old(Current()).(startDate := value)
      ensures currentPage == 1
    {
      filterStartDate := value;
      currentPage := 1;
    }

    /** The end-date input (ExpenseList.jsx:173-176). */
    method SetEndDate(value: string)
      modifies this
      ensures Current() == old(Current()).(endDate := value)
      ensures currentPage == 1
    {
      filterEndDate := value;
      currentPage := 1;
    }

    /** The path fetchExpenses requests (ExpenseList.jsx:23-38). */
    method QueryPath() returns (path: string)
      ensures path == PathOf(Current())
    {
      path := EXPENSES_PATH;
      var queryParams: seq<string> := [];
      if filterCategory != ALL_CATEGORIES {
        queryParams := queryParams + [CATEGORY_PARAM + filterCategory];
      }
      if filterStartDate != "" {
        queryParams := queryParams + [START_PARAM + filterStartDate];
      }
      if filterEndDate != "" {
        queryParams := queryParams + [END_PARAM + filterEndDate];
      }
      if |queryParams| > 0 {
        path := path + ("?" + Join(queryParams, '&'));
      }
      assert queryParams == Params(Current());
    }

    /** The Previous button (ExpenseList.jsx:242-243): nothing when disabled. */
    method ClickPrevious(totalPages: nat)
      modifies this`currentPage
      ensures PreviousDisabled(old(currentPage)) ==> currentPage == old(currentPage)
      ensures !PreviousDisabled(old(currentPage)) ==> currentPage == old(currentPage) - 1
      ensures 1 <= old(currentPage) <= totalPages ==> 1 <= currentPage <= totalPages
    {
      if !PreviousDisabled(currentPage) {
        currentPage := currentPage - 1;
      }
    }

    /** The Next button (ExpenseList.jsx:265-266): nothing when disabled. */
    method ClickNext(totalPages: nat)
      modifies this`currentPage
      ensures NextDisabled(old(currentPage), totalPages) ==> currentPage == old(currentPage)
      ensures !NextDisabled(old(currentPage), totalPages) ==> currentPage == old(currentPage) + 1
      ensures 1 <= old(currentPage) <= totalPages ==> 1 <= currentPage <= totalPages
    {
      if !NextDisabled(currentPage, totalPages) {
        currentPage := currentPage + 1;
      }
    }

    /** The numbered button `i + 1` (ExpenseList.jsx:249-252). */
    method ClickPage(i: nat, totalPages: nat)
      requires i < totalPages
      modifies this`currentPage
      ensures currentPage == i + 1 && 1 <= currentPage <= totalPages
    {
      currentPage := i + 1;
    }
  }
}
