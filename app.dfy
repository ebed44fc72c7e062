/**
 * The dashboard page (`App`): the filter, page and refresh state, the two
 * effects that load articles and domain counts, the search debounce, the
 * refresh button with its status poll, and the pagination controls.
 *
 * React state becomes the fields of `Dashboard`. What happens when the
 * browser gets to it (a timer callback running, a request resolving)
 * becomes an explicit event method. A callback created during a render
 * sees the state of that render; the model keeps that captured state
 * alongside the pending timer or poll.
 */
module App {
  import opened Wrappers
  import opened Text
  import opened Types
  import Api
  import FilterSidebar

  const PAGE_SIZE: int := 20
  const LOAD_ERROR: string := "Failed to load articles. Please make sure the backend server is running on port 8000."
  const HINT_ADJUST_FILTERS: string := "Try adjusting your filters or search terms."
  const HINT_REFRESH: string := "Click \"Refresh Feed\" to fetch the latest scientific news."

  /** The domains offered in the sidebar. */
  const AVAILABLE_DOMAINS: seq<string> := [
    "Physics", "Biology", "Astronomy", "AI", "Medicine", "Chemistry",
    "Earth Science", "Technology", "Neuroscience", "General Science"
  ]

  /** The state a list request is made from. */
  datatype QueryState = QueryState(
    searchQuery: string,
    selectedDomains: seq<string>,
    startDate: string,
    endDate: string,
    page: int)

  const INITIAL_QUERY: QueryState := QueryState("", [], "", "", 1)

  /** The argument `loadArticles` passes to `fetchArticles`: empty filters become `undefined`. */
  function RequestFor(q: QueryState): Api.FetchArticlesParams {
    Api.FetchArticlesParams(
      if q.startDate != "" then Some(q.startDate) else None,
      if q.endDate != "" then Some(q.endDate) else None,
      if |q.selectedDomains| > 0 then Some(q.selectedDomains) else None,
      if q.searchQuery != "" then Some(q.searchQuery) else None,
      Some(q.page),
      Some(PAGE_SIZE))
  }

  /**
   * The query string of a list request carries each non-empty filter as it
   * is (the domains joined with commas), omits the empty ones, and always
   * carries the page (when not 0) and the page size 20.
   */
  lemma RequestQuery(q: QueryState)
    ensures var query := Api.QueryEntries(RequestFor(q));
      && Api.Lookup(query, "start_date") == (if q.startDate != "" then Some(q.startDate) else None)
      && Api.Lookup(query, "end_date") == (if q.endDate != "" then Some(q.endDate) else None)
      && Api.Lookup(query, "domains")
         == (if |q.selectedDomains| > 0 then Some(Join(q.selectedDomains, ',')) else None)
      && Api.Lookup(query, "search") == (if q.searchQuery != "" then Some(q.searchQuery) else None)
      && (q.page != 0 ==> Api.Lookup(query, "page") == Some(IntToString(q.page)))
      && Api.Lookup(query, "page_size") == Some(IntToString(PAGE_SIZE))
  {
    Api.QueryEntriesLookup(RequestFor(q));
  }

  // ---------------------------------------------------------------------------
  // Sidebar callbacks

  /** `handleDomainChange` / `handleDateChange`: the new filter values, and page 1. */
  function ApplyChange(q: QueryState, c: FilterSidebar.Change): QueryState {
    match c
    case DomainChange(domains) => q.(selectedDomains := domains, page := 1)
    case DateChange(start, end) => q.(startDate := start, endDate := end, page := 1)
  }

  /** The callbacks of one sidebar interaction, applied in order. */
  function ApplyChanges(q: QueryState, changes: seq<FilterSidebar.Change>): QueryState
    decreases |changes|
  {
    if changes == [] then q
    else ApplyChange(ApplyChanges(q, changes[..|changes| - 1]), changes[|changes| - 1])
  }

  /** Any sidebar interaction leaves the search alone and goes back to page 1. */
  lemma {:induction false} ChangesResetPage(q: QueryState, changes: seq<FilterSidebar.Change>)
    requires changes != []
    ensures ApplyChanges(q, changes).page == 1
    ensures ApplyChanges(q, changes).searchQuery == q.searchQuery
    decreases |changes|
  {
    if |changes| > 1 {
      ChangesResetPage(q, changes[..|changes| - 1]);
    }
  }

  /** "Clear All Filters": no domains, no dates, page 1; the search stays. */
  lemma ClearFiltersResets(q: QueryState)
    ensures ApplyChanges(q, FilterSidebar.ClearFilters())
         == q.(selectedDomains := [], startDate := "", endDate := "", page := 1)
  {
    var changes := FilterSidebar.ClearFilters();
    assert changes[..1] == [changes[0]];
    assert changes[..1][..0] == [];
  }

  /** Editing one date input sets that date, keeps the other, and goes back to page 1. */
  lemma DateInputsKeepOtherDate(q: QueryState, value: string)
    ensures ApplyChanges(q, FilterSidebar.OnStartDateInput(value, q.endDate))
         == q.(startDate := value, page := 1)
    ensures ApplyChanges(q, FilterSidebar.OnEndDateInput(q.startDate, value))
         == q.(endDate := value, page := 1)
  {
    assert FilterSidebar.OnStartDateInput(value, q.endDate)[..0] == [];
    assert FilterSidebar.OnEndDateInput(q.startDate, value)[..0] == [];
  }

  /**
   * The effect on `[selectedDomains, startDate, endDate, page]` runs again:
   * `handleDomainChange` always passes a new array, and the other three
   * count when their value differs.
   */
  predicate FilterEffectRuns(before: QueryState, after: QueryState, changes: seq<FilterSidebar.Change>) {
    || (exists i | 0 <= i < |changes| :: changes[i].DomainChange?)
    || before.startDate != after.startDate
    || before.endDate != after.endDate
    || before.page != after.page
  }

  // ---------------------------------------------------------------------------
  // Pagination

  /** `Math.ceil(totalArticles / 20)`. */
  function TotalPages(total: int): (pages: int)
    ensures PAGE_SIZE * (pages - 1) < total <= PAGE_SIZE * pages
    ensures total >= 0 ==> pages >= 0
  {
    -((-total) / PAGE_SIZE)
  }

  /** `Math.max(1, p - 1)`. */
  function PreviousPage(page: int): int {
    if page - 1 < 1 then 1 else page - 1
  }

  /** `Math.min(totalPages, p + 1)`. */
  function NextPage(page: int, totalPages: int): int {
    if totalPages < page + 1 then totalPages else page + 1
  }

  /** `disabled={page === 1}`. */
  predicate PreviousDisabled(page: int) {
    page == 1
  }

  /** `disabled={page === totalPages}`. */
  predicate NextDisabled(page: int, totalPages: int) {
    page == totalPages
  }

  /** A page in range stays in range, moving by one unless it is already at the end. */
  lemma PagesStayInRange(page: int, totalPages: int)
    requires 1 <= page <= totalPages
    ensures 1 <= PreviousPage(page) <= totalPages && 1 <= NextPage(page, totalPages) <= totalPages
    ensures PreviousPage(page) == (if page == 1 then 1 else page - 1)
    ensures NextPage(page, totalPages) == (if page == totalPages then totalPages else page + 1)
  {
  }

  /** A button is disabled exactly when clicking it would leave the page where it is. */
  lemma DisabledExactlyAtEnds(page: int, totalPages: int)
    ensures PreviousDisabled(page) <==> PreviousPage(page) == page
    ensures NextDisabled(page, totalPages) <==> NextPage(page, totalPages) == page
  {
  }

  /** The page after `n` clicks on Next. */
  function Iterate(page: int, totalPages: int, n: nat): int
    decreases n
  {
    if n == 0 then page else NextPage(Iterate(page, totalPages, n - 1), totalPages)
  }

  /** Starting from page 1, `n` clicks on Next reach page `n + 1` as long as it exists. */
  lemma {:induction false} NextReachesEveryPage(totalPages: int, n: nat)
    requires n + 1 <= totalPages
    ensures Iterate(1, totalPages, n) == n + 1
    decreases n
  {
    if n > 0 {
      NextReachesEveryPage(totalPages, n - 1);
    }
  }

  /** The empty-list hint: adjust the filters if any is set, otherwise fetch news. */
  function EmptyMessage(q: QueryState): (message: string)
    ensures message == HINT_ADJUST_FILTERS <==>
      (q.searchQuery != "" || |q.selectedDomains| > 0 || q.startDate != "" || q.endDate != "")
    ensures message == HINT_ADJUST_FILTERS || message == HINT_REFRESH
  {
    if q.searchQuery != "" || |q.selectedDomains| > 0 || q.startDate != "" || q.endDate != "" then HINT_ADJUST_FILTERS
    else HINT_REFRESH
  }

  /** What the main column shows below the chart and the error box. */
  datatype Listing =
    | Spinner
    | EmptyList(message: string)
    | Cards(articles: seq<Article>, pagination: bool)

  /** The component's state; see the module comment. */
  class Dashboard {
    var articles: seq<Article>
    var isLoading: bool
    var isRefreshing: bool
    var error: Option<string>
    var searchQuery: string
    var selectedDomains: seq<string>
    var startDate: string
    var endDate: string
    var domainStats: seq<DomainStats>
    var page: int
    var totalArticles: int

    /** The pending debounce timer, with the state its callback captured. */
    var searchTimer: Option<QueryState>
    /** Between a click on "Refresh Feed" and the answer to `POST /refresh`: the click's state. */
    var refreshCall: Option<QueryState>
    /** The running status poll, with the state its callback captured. */
    var refreshPoll: Option<QueryState>

    /** The list requests sent, in order. */
    var articleRequests: seq<Api.FetchArticlesParams>
    /** The number of `GET /domains` requests sent. */
    var statsRequests: nat
    /** The number of `POST /refresh` requests sent. */
    var refreshRequests: nat

    ghost predicate Valid()
      reads this
    {
      && page >= 1
      && (refreshCall.Some? ==> isRefreshing && refreshPoll.None?)
      && (refreshPoll.Some? ==> isRefreshing)
    }

    function Query(): QueryState
      reads this
    {
      QueryState(searchQuery, selectedDomains, startDate, endDate, page)
    }

    /** What the last responses left on screen. */
    function Shown(): (seq<Article>, int, seq<DomainStats>, Option<string>, bool)
      reads this
    {
      (articles, totalArticles, domainStats, error, isLoading)
    }

    function Timers(): (Option<QueryState>, Option<QueryState>, Option<QueryState>, bool)
      reads this
    {
      (searchTimer, refreshCall, refreshPoll, isRefreshing)
    }

    function Sent(): (seq<Api.FetchArticlesParams>, nat, nat)
      reads this
    {
      (articleRequests, statsRequests, refreshRequests)
    }

    function TotalPagesShown(): int
      reads this
    {
      TotalPages(totalArticles)
    }

    /** The pagination controls are on screen. */
    predicate PaginationShown()
      reads this
    {
      !isLoading && |articles| > 0 && TotalPagesShown() > 1
    }

    /** `disabled={isRefreshing}` on "Refresh Feed". */
    predicate RefreshDisabled()
      reads this
    {
      isRefreshing
    }

    /** The main column: spinner while loading, the hint when empty, else the cards. */
    function MainListing(): (listing: Listing)
      reads this
      ensures isLoading <==> listing.Spinner?
      ensures listing.EmptyList? <==> !isLoading && articles == []
      ensures listing.EmptyList? ==> listing.message == EmptyMessage(Query())
      ensures listing.Cards? ==> listing.articles == articles && (listing.pagination <==> PaginationShown())
    {
      if isLoading then Spinner
      else if articles == [] then EmptyList(EmptyMessage(Query()))
      else Cards(articles, TotalPagesShown() > 1)
    }

    /** The domain chart is rendered only when there are statistics. */
    predicate ChartShown()
      reads this
    {
      |domainStats| > 0
    }

    /** `loadArticles()` up to its `await`, run with the state `q` its closure captured. */
    method LoadArticles(q: QueryState)
      modifies this
      ensures isLoading && error == None
      ensures articleRequests == old(articleRequests) + [RequestFor(q)]
      ensures statsRequests == old(statsRequests) && refreshRequests == old(refreshRequests)
      ensures Query() == old(Query()) && Timers() == old(Timers())
      ensures articles == old(articles) && totalArticles == old(totalArticles) && domainStats == old(domainStats)
    {
      isLoading := true;
      error := None;
      articleRequests := articleRequests + [RequestFor(q)];
    }

    /** The effect on the filters and page: `loadArticles()` and `loadDomainStats()` with the current state. */
    method FilterEffect()
      modifies this
      ensures isLoading && error == None
      ensures articleRequests == old(articleRequests) + [RequestFor(Query())]
      ensures statsRequests == old(statsRequests) + 1 && refreshRequests == old(refreshRequests)
      ensures Query() == old(Query()) && Timers() == old(Timers())
      ensures articles == old(articles) && totalArticles == old(totalArticles) && domainStats == old(domainStats)
    {
      LoadArticles(Query());
      statsRequests := statsRequests + 1;
    }

    /**
     * The first render: the initial state, then both effects run — the
     * filter effect loads articles and counts, and the search effect starts
     * the debounce timer.
     */
    constructor ()
      ensures Valid()
      ensures Query() == INITIAL_QUERY
      ensures articles == [] && totalArticles == 0 && domainStats == [] && isLoading && error == None
      ensures articleRequests == [RequestFor(INITIAL_QUERY)] && statsRequests == 1 && refreshRequests == 0
      ensures searchTimer == Some(INITIAL_QUERY) && refreshCall == None && refreshPoll == None && !isRefreshing
    {
      articles := [];
      isLoading := true;
      isRefreshing := false;
      error := None;
      searchQuery := "";
      selectedDomains := [];
      startDate := "";
      endDate := "";
      domainStats := [];
      page := 1;
      totalArticles := 0;
      searchTimer := None;
      refreshCall := None;
      refreshPoll := None;
      articleRequests := [];
      statsRequests := 0;
      refreshRequests := 0;
      new;
      FilterEffect();
      searchTimer := Some(Query());
    }

    /**
     * `fetchArticles` resolved or rejected: a result replaces the list and
     * the total; a failure sets the fixed message and keeps both. Either way
     * loading ends.
     */
    method ArticlesResponseArrived(outcome: Result<ArticlesResponse, string>)
      requires Valid()
      modifies this
      ensures Valid()
      ensures outcome.Ok? ==> articles == outcome.value.articles && totalArticles == outcome.value.total && error == old(error)
      ensures outcome.Err? ==> articles == old(articles) && totalArticles == old(totalArticles) && error == Some(LOAD_ERROR)
      ensures !isLoading && domainStats == old(domainStats)
      ensures Query() == old(Query()) && Timers() == old(Timers()) && Sent() == old(Sent())
    {
      if outcome.Ok? {
        articles := outcome.value.articles;
        totalArticles := outcome.value.total;
      } else {
        error := Some(LOAD_ERROR);
      }
      isLoading := false;
    }

    /** `fetchDomainStats` resolved or rejected: a result replaces the counts, a failure changes nothing. */
    method StatsResponseArrived(outcome: Result<seq<DomainStats>, string>)
      requires Valid()
      modifies this
      ensures Valid()
      ensures domainStats == (if outcome.Ok? then outcome.value else old(domainStats))
      ensures articles == old(articles) && totalArticles == old(totalArticles) && error == old(error) && isLoading == old(isLoading)
      ensures Query() == old(Query()) && Timers() == old(Timers()) && Sent() == old(Sent())
    {
      if outcome.Ok? {
        domainStats := outcome.value;
      }
    }

    /**
     * One sidebar interaction: its callbacks run in order within one event,
     * so React renders once and the filter effect runs at most once.
     */
    method HandleSidebar(changes: seq<FilterSidebar.Change>)
      requires Valid()
      modifies this
      ensures Valid()
      ensures Query() == ApplyChanges(old(Query()), changes)
      ensures FilterEffectRuns(old(Query()), Query(), changes) ==>
        && articleRequests == old(articleRequests) + [RequestFor(Query())]
        && statsRequests == old(statsRequests) + 1
        && isLoading && error == None
      ensures !FilterEffectRuns(old(Query()), Query(), changes) ==> Sent() == old(Sent()) && Shown() == old(Shown())
      ensures articles == old(articles) && totalArticles == old(totalArticles) && domainStats == old(domainStats)
      ensures Timers() == old(Timers()) && refreshRequests == old(refreshRequests)
    {
      var startBefore, endBefore, pageBefore := startDate, endDate, page;
      var domainsChanged := ApplySidebarChanges(changes);
      if domainsChanged || startDate != startBefore || endDate != endBefore || page != pageBefore {
        FilterEffect();
      }
    }

    /**
     * The state updates of the sidebar's callbacks, in order: a domain change
     * sets the domains, a date change both dates, and each goes back to page 1.
     */
    method ApplySidebarChanges(changes: seq<FilterSidebar.Change>) returns (domainsChanged: bool)
      requires Valid()
      modifies this
      ensures Valid()
      ensures Query() == ApplyChanges(old(Query()), changes)
      ensures domainsChanged <==> exists j | 0 <= j < |changes| :: changes[j].DomainChange?
      ensures Shown() == old(Shown()) && Timers() == old(Timers()) && Sent() == old(Sent())
    {
      ghost var before := Query();
      domainsChanged := false;
      var i := 0;
      while i < |changes|
        invariant 0 <= i <= |changes|
        invariant Query() == ApplyChanges(before, changes[..i]) && page >= 1
        invariant domainsChanged <==> exists j | 0 <= j < i :: changes[j].DomainChange?
        invariant Shown() == old(Shown()) && Timers() == old(Timers()) && Sent() == old(Sent())
      {
        PrefixStep(changes, i);
        match changes[i] {
          case DomainChange(domains) =>
            selectedDomains := domains;
            page := 1;
            domainsChanged := true;
          case DateChange(start, end) =>
            startDate := start;
            endDate := end;
            page := 1;
        }
        i := i + 1;
      }
      assert changes[..i] == changes;
    }

    /**
     * Typing in the search box: the text changes at once; a new value
     * restarts the debounce timer, whose callback captures the new state.
     */
    method SearchInput(value: string)
      requires Valid()
      modifies this
      ensures Valid()
      ensures Query() == old(Query()).(searchQuery := value)
      ensures searchTimer == (if value != old(searchQuery) then Some(Query()) else old(searchTimer))
      ensures refreshCall == old(refreshCall) && refreshPoll == old(refreshPoll) && isRefreshing == old(isRefreshing)
      ensures Shown() == old(Shown()) && Sent() == old(Sent())
    {
      if value != searchQuery {
        searchQuery := value;
        searchTimer := Some(Query());
      }
    }

    /**
     * The debounce timer fires. With the captured page at 1 it loads with the
     * captured state; otherwise it sets the page to 1, and the page effect
     * loads with the current state if that changed the page. So one firing
     * sends at most one list request.
     */
    method DebounceFired()
      requires Valid() && searchTimer.Some?
      modifies this
      ensures Valid()
      ensures searchTimer == None
      ensures var captured := old(searchTimer).value;
        && (captured.page == 1 ==>
              && articleRequests == old(articleRequests) + [RequestFor(captured)]
              && statsRequests == old(statsRequests) && Query() == old(Query())
              && isLoading && error == None)
        && (captured.page != 1 && old(page) != 1 ==>
              && Query() == old(Query()).(page := 1)
              && articleRequests == old(articleRequests) + [RequestFor(Query())]
              && statsRequests == old(statsRequests) + 1
              && isLoading && error == None)
        && (captured.page != 1 && old(page) == 1 ==>
              Query() == old(Query()) && Sent() == old(Sent()) && Shown() == old(Shown()))
      ensures |articleRequests| <= |old(articleRequests)| + 1 && refreshRequests == old(refreshRequests)
      ensures refreshCall == old(refreshCall) && refreshPoll == old(refreshPoll) && isRefreshing == old(isRefreshing)
      ensures articles == old(articles) && totalArticles == old(totalArticles) && domainStats == old(domainStats)
    {
      var captured := searchTimer.value;
      searchTimer := None;
      if captured.page == 1 {
        LoadArticles(captured);
      } else if page != 1 {
        page := 1;
        FilterEffect();
      }
    }

    /** "Previous": ignored while disabled, else the page moves down and the page effect loads. */
    method ClickPrevious()
      requires Valid() && PaginationShown()
      modifies this
      ensures Valid()
      ensures page == PreviousPage(old(page))
      ensures PreviousDisabled(old(page)) ==> Sent() == old(Sent()) && Shown() == old(Shown())
      ensures !PreviousDisabled(old(page)) ==>
        && page == old(page) - 1
        && articleRequests == old(articleRequests) + [RequestFor(Query())]
        && statsRequests == old(statsRequests) + 1
        && isLoading && error == None
      ensures Query() == old(Query()).(page := page) && Timers() == old(Timers())
      ensures articles == old(articles) && totalArticles == old(totalArticles) && domainStats == old(domainStats)
      ensures refreshRequests == old(refreshRequests)
    {
      if PreviousDisabled(page) {
        return;
      }
      page := PreviousPage(page);
      FilterEffect();
    }

    /** "Next": ignored while disabled, else the page moves up (never past the last) and the page effect loads. */
    method ClickNext()
      requires Valid() && PaginationShown()
      modifies this
      ensures Valid()
      ensures NextDisabled(old(page), TotalPagesShown()) ==> page == old(page) && Sent() == old(Sent()) && Shown() == old(Shown())
      ensures !NextDisabled(old(page), TotalPagesShown()) ==>
        && page == NextPage(old(page), TotalPagesShown())
        && (old(page) < TotalPagesShown() ==> page == old(page) + 1)
        && articleRequests == old(articleRequests) + [RequestFor(Query())]
        && statsRequests == old(statsRequests) + 1
        && isLoading && error == None
      ensures Query() == old(Query()).(page := page) && Timers() == old(Timers())
      ensures articles == old(articles) && totalArticles == old(totalArticles) && domainStats == old(domainStats)
      ensures refreshRequests == old(refreshRequests)
    {
      if NextDisabled(page, TotalPagesShown()) {
        return;
      }
      page := NextPage(page, TotalPagesShown());
      FilterEffect();
    }

    /** "Refresh Feed": ignored while disabled; else the flag goes up and `POST /refresh` is sent. */
    method ClickRefresh()
      requires Valid()
      modifies this
      ensures Valid()
      ensures old(isRefreshing) ==> Timers() == old(Timers()) && Sent() == old(Sent())
      ensures !old(isRefreshing) ==>
        && isRefreshing && refreshCall == Some(Query()) && refreshPoll == None
        && refreshRequests == old(refreshRequests) + 1
      ensures articleRequests == old(articleRequests) && statsRequests == old(statsRequests)
      ensures Query() == old(Query()) && Shown() == old(Shown()) && searchTimer == old(searchTimer)
    {
      if RefreshDisabled() {
        return;
      }
      isRefreshing := true;
      refreshRequests := refreshRequests + 1;
      refreshCall := Some(Query());
    }

    /** `refreshFeed()` settled: success starts the poll, failure lowers the flag. */
    method RefreshCallReturned(outcome: Result<RefreshResponse, string>)
      requires Valid() && refreshCall.Some?
      modifies this
      ensures Valid()
      ensures refreshCall == None
      ensures outcome.Ok? ==> refreshPoll == old(refreshCall) && isRefreshing
      ensures outcome.Err? ==> refreshPoll == None && !isRefreshing
      ensures Query() == old(Query()) && Shown() == old(Shown()) && Sent() == old(Sent()) && searchTimer == old(searchTimer)
    {
      var captured := refreshCall;
      refreshCall := None;
      if outcome.Ok? {
        refreshPoll := captured;
      } else {
        isRefreshing := false;
      }
    }

    /**
     * A status poll settled. Only an answer saying the service is no longer
     * refreshing stops the poll, lowers the flag and reloads articles (with
     * the state captured at the click) and counts; a rejected poll changes
     * nothing and the next tick polls again.
     */
    method PollReturned(status: Result<Types.RefreshStatus, string>)
      requires Valid() && refreshPoll.Some?
      modifies this
      ensures Valid()
      ensures status.Ok? && !status.value.isRefreshing ==>
        && refreshPoll == None && !isRefreshing
        && articleRequests == old(articleRequests) + [RequestFor(old(refreshPoll).value)]
        && statsRequests == old(statsRequests) + 1
        && refreshRequests == old(refreshRequests)
        && isLoading && error == None
      ensures !(status.Ok? && !status.value.isRefreshing) ==>
        Timers() == old(Timers()) && Sent() == old(Sent()) && Shown() == old(Shown())
      ensures Query() == old(Query()) && searchTimer == old(searchTimer) && refreshCall == old(refreshCall)
      ensures articles == old(articles) && totalArticles == old(totalArticles) && domainStats == old(domainStats)
    {
      if status.Ok? && !status.value.isRefreshing {
        var captured := refreshPoll.value;
        refreshPoll := None;
        isRefreshing := false;
        LoadArticles(captured);
        statsRequests := statsRequests + 1;
      }
    }
  }
}
