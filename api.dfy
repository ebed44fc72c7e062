/**
 * The browser's client of the news service: the query string of the article
 * list request and the rule that every non-ok response becomes an error.
 */
module Api {
  import opened Wrappers
  import opened Text
  import opened Types

  const API_BASE_URL: string := "http://localhost:8000"

  const FETCH_ARTICLES_FAILED: string := "Failed to fetch articles"
  const FETCH_STATS_FAILED: string := "Failed to fetch domain statistics"
  const REFRESH_FAILED: string := "Failed to refresh feed"
  const STATUS_FAILED: string := "Failed to get refresh status"

  /** The optional arguments of the article list request; `None` is `undefined`. */
  datatype FetchArticlesParams = FetchArticlesParams(
    startDate: Option<string>,
    endDate: Option<string>,
    domains: Option<seq<string>>,
    search: Option<string>,
    page: Option<int>,
    pageSize: Option<int>)

  /** The call made with no argument object (`params = {}`). */
  const NO_PARAMS: FetchArticlesParams := FetchArticlesParams(None, None, None, None, None, None)

  /** One `name=value` pair of a query string. */
  type QueryParam = (string, string)

  /** The names the list request may carry, in the order they are appended. */
  const PARAM_ORDER: seq<string> := ["start_date", "end_date", "domains", "search", "page", "page_size"]

  /** JavaScript truthiness of an optional string: present and not empty. */
  predicate TextGiven(o: Option<string>) {
    o.Some? && o.value != ""
  }

  /** JavaScript truthiness of an optional number (integers only): present and not 0. */
  predicate NumberGiven(o: Option<int>) {
    o.Some? && o.value != 0
  }

  /** `params.domains && params.domains.length > 0`. */
  predicate DomainsGiven(o: Option<seq<string>>) {
    o.Some? && |o.value| > 0
  }

  /** The browser's `URLSearchParams`: an ordered list of pairs that `append` extends. */
  class SearchParams {
    var entries: seq<QueryParam>

    constructor ()
      ensures entries == []
    {
      entries := [];
    }

    method Append(name: string, value: string)
      modifies this
      ensures entries == old(entries) + [(name, value)]
    {
      entries := entries + [(name, value)];
    }
  }

  function Optional(given: bool, name: string, value: string): seq<QueryParam> {
    if given then [(name, value)] else []
  }

  /** The pairs the list request carries, in append order. */
  function QueryEntries(p: FetchArticlesParams): seq<QueryParam> {
    Optional(TextGiven(p.startDate), "start_date", p.startDate.GetOr(""))
    + Optional(TextGiven(p.endDate), "end_date", p.endDate.GetOr(""))
    + Optional(DomainsGiven(p.domains), "domains", Join(p.domains.GetOr([]), ','))
    + Optional(TextGiven(p.search), "search", p.search.GetOr(""))
    + Optional(NumberGiven(p.page), "page", IntToString(p.page.GetOr(0)))
    + Optional(NumberGiven(p.pageSize), "page_size", IntToString(p.pageSize.GetOr(0)))
  }

  /** The query-string construction of `fetchArticles`: one conditional append per argument. */
  method BuildQuery(p: FetchArticlesParams) returns (query: seq<QueryParam>)
    ensures query == QueryEntries(p)
  {
    var queryParams := new SearchParams();
    ghost var expected := Optional(TextGiven(p.startDate), "start_date", p.startDate.GetOr(""));
    if TextGiven(p.startDate) {
      queryParams.Append("start_date", p.startDate.value);
    }
    assert queryParams.entries == expected;
    expected := expected + Optional(TextGiven(p.endDate), "end_date", p.endDate.GetOr(""));
    if TextGiven(p.endDate) {
      queryParams.Append("end_date", p.endDate.value);
    }
    assert queryParams.entries == expected;
    expected := expected + Optional(DomainsGiven(p.domains), "domains", Join(p.domains.GetOr([]), ','));
    if DomainsGiven(p.domains) {
      queryParams.Append("domains", Join(p.domains.value, ','));
    }
    assert queryParams.entries == expected;
    expected := expected + Optional(TextGiven(p.search), "search", p.search.GetOr(""));
    if TextGiven(p.search) {
      queryParams.Append("search", p.search.value);
    }
    assert queryParams.entries == expected;
    expected := expected + Optional(NumberGiven(p.page), "page", IntToString(p.page.GetOr(0)));
    if NumberGiven(p.page) {
      queryParams.Append("page", IntToString(p.page.value));
    }
    assert queryParams.entries == expected;
    expected := expected + Optional(NumberGiven(p.pageSize), "page_size", IntToString(p.pageSize.GetOr(0)));
    if NumberGiven(p.pageSize) {
      queryParams.Append("page_size", IntToString(p.pageSize.value));
    }
    assert queryParams.entries == expected;
    query := queryParams.entries;
  }

  /** The value of the first pair named `name`, as `URLSearchParams.get` gives it. */
  function Lookup(query: seq<QueryParam>, name: string): Option<string>
    decreases |query|
  {
    if query == [] then None
    else if query[0].0 == name then Some(query[0].1)
    else Lookup(query[1..], name)
  }

  lemma {:induction false} LookupAppend(a: seq<QueryParam>, b: seq<QueryParam>, name: string)
    ensures Lookup(a + b, name) == if Lookup(a, name).Some? then Lookup(a, name) else Lookup(b, name)
    decreases |a|
  {
    if a == [] {
      assert a + b == b;
    } else {
      assert (a + b)[1..] == a[1..] + b;
      LookupAppend(a[1..], b, name);
    }
  }

  lemma LookupOptional(given: bool, name: string, value: string, key: string)
    ensures Lookup(Optional(given, name, value), key) == if given && name == key then Some(value) else None
  {
  }

  /** The value under `key` is the one of the first argument slot that carries `key`. */
  lemma QueryEntriesLookupAt(p: FetchArticlesParams, key: string)
    ensures Lookup(QueryEntries(p), key)
         == if TextGiven(p.startDate) && key == "start_date" then p.startDate
            else if TextGiven(p.endDate) && key == "end_date" then p.endDate
            else if DomainsGiven(p.domains) && key == "domains" then Some(Join(p.domains.value, ','))
            else if TextGiven(p.search) && key == "search" then p.search
            else if NumberGiven(p.page) && key == "page" then Some(IntToString(p.page.value))
            else if NumberGiven(p.pageSize) && key == "page_size" then Some(IntToString(p.pageSize.value))
            else None
  {
    var s0 := Optional(TextGiven(p.startDate), "start_date", p.startDate.GetOr(""));
    var s1 := Optional(TextGiven(p.endDate), "end_date", p.endDate.GetOr(""));
    var s2 := Optional(DomainsGiven(p.domains), "domains", Join(p.domains.GetOr([]), ','));
    var s3 := Optional(TextGiven(p.search), "search", p.search.GetOr(""));
    var s4 := Optional(NumberGiven(p.page), "page", IntToString(p.page.GetOr(0)));
    var s5 := Optional(NumberGiven(p.pageSize), "page_size", IntToString(p.pageSize.GetOr(0)));
    LookupOptional(TextGiven(p.startDate), "start_date", p.startDate.GetOr(""), key);
    LookupOptional(TextGiven(p.endDate), "end_date", p.endDate.GetOr(""), key);
    LookupOptional(DomainsGiven(p.domains), "domains", Join(p.domains.GetOr([]), ','), key);
    LookupOptional(TextGiven(p.search), "search", p.search.GetOr(""), key);
    LookupOptional(NumberGiven(p.page), "page", IntToString(p.page.GetOr(0)), key);
    LookupOptional(NumberGiven(p.pageSize), "page_size", IntToString(p.pageSize.GetOr(0)), key);
    LookupAppend(s0, s1, key);
    LookupAppend(s0 + s1, s2, key);
    LookupAppend(s0 + s1 + s2, s3, key);
    LookupAppend(s0 + s1 + s2 + s3, s4, key);
    LookupAppend(s0 + s1 + s2 + s3 + s4, s5, key);
  }

  /** Each argument is on the query string exactly when it is truthy, with its value. */
  lemma QueryEntriesLookup(p: FetchArticlesParams)
    ensures Lookup(QueryEntries(p), "start_date") == if TextGiven(p.startDate) then p.startDate else None
    ensures Lookup(QueryEntries(p), "end_date") == if TextGiven(p.endDate) then p.endDate else None
    ensures Lookup(QueryEntries(p), "domains")
         == if DomainsGiven(p.domains) then Some(Join(p.domains.value, ',')) else None
    ensures Lookup(QueryEntries(p), "search") == if TextGiven(p.search) then p.search else None
    ensures Lookup(QueryEntries(p), "page")
         == if NumberGiven(p.page) then Some(IntToString(p.page.value)) else None
    ensures Lookup(QueryEntries(p), "page_size")
         == if NumberGiven(p.pageSize) then Some(IntToString(p.pageSize.value)) else None
  {
    QueryEntriesLookupAt(p, "start_date");
    QueryEntriesLookupAt(p, "end_date");
    QueryEntriesLookupAt(p, "domains");
    QueryEntriesLookupAt(p, "search");
    QueryEntriesLookupAt(p, "page");
    QueryEntriesLookupAt(p, "page_size");
  }

  /** Position of a parameter name in the append order (6 for a foreign name). */
  function Rank(name: string): nat {
    if name == "start_date" then 0
    else if name == "end_date" then 1
    else if name == "domains" then 2
    else if name == "search" then 3
    else if name == "page" then 4
    else if name == "page_size" then 5
    else 6
  }

  /** The names strictly follow the append order (so none occurs twice). */
  ghost predicate InParamOrder(query: seq<QueryParam>) {
    forall i, j | 0 <= i < j < |query| :: Rank(query[i].0) < Rank(query[j].0)
  }

  /** Every name in `query` ranks at most `k`. */
  ghost predicate RanksAtMost(query: seq<QueryParam>, k: nat) {
    forall i | 0 <= i < |query| :: Rank(query[i].0) <= k
  }

  lemma ExtendInOrder(a: seq<QueryParam>, given: bool, name: string, value: string)
    requires InParamOrder(a) && Rank(name) > 0 && RanksAtMost(a, Rank(name) - 1)
    ensures InParamOrder(a + Optional(given, name, value))
    ensures RanksAtMost(a + Optional(given, name, value), Rank(name))
  {
  }

  lemma KnownRank(name: string)
    requires Rank(name) <= 5
    ensures name in PARAM_ORDER
  {
  }

  /** The pairs appended for argument slot `k` of the append order. */
  function Slot(p: FetchArticlesParams, k: nat): seq<QueryParam>
    requires k < |PARAM_ORDER|
  {
    if k == 0 then Optional(TextGiven(p.startDate), "start_date", p.startDate.GetOr(""))
    else if k == 1 then Optional(TextGiven(p.endDate), "end_date", p.endDate.GetOr(""))
    else if k == 2 then Optional(DomainsGiven(p.domains), "domains", Join(p.domains.GetOr([]), ','))
    else if k == 3 then Optional(TextGiven(p.search), "search", p.search.GetOr(""))
    else if k == 4 then Optional(NumberGiven(p.page), "page", IntToString(p.page.GetOr(0)))
    else Optional(NumberGiven(p.pageSize), "page_size", IntToString(p.pageSize.GetOr(0)))
  }

  /** The pairs of the first `k` slots. */
  function Stage(p: FetchArticlesParams, k: nat): seq<QueryParam>
    requires k <= |PARAM_ORDER|
  {
    if k == 0 then [] else Stage(p, k - 1) + Slot(p, k - 1)
  }

  lemma QueryEntriesStage(p: FetchArticlesParams)
    ensures QueryEntries(p) == Stage(p, 6)
  {
    assert Stage(p, 1) == Slot(p, 0);
    assert Stage(p, 2) == Slot(p, 0) + Slot(p, 1);
    assert Stage(p, 3) == Stage(p, 2) + Slot(p, 2);
    assert Stage(p, 4) == Stage(p, 3) + Slot(p, 3);
    assert Stage(p, 5) == Stage(p, 4) + Slot(p, 4);
    assert Stage(p, 6) == Stage(p, 5) + Slot(p, 5);
  }

  lemma SlotExtends(a: seq<QueryParam>, p: FetchArticlesParams, k: nat)
    requires 1 <= k < |PARAM_ORDER|
    requires InParamOrder(a) && RanksAtMost(a, k - 1)
    ensures InParamOrder(a + Slot(p, k)) && RanksAtMost(a + Slot(p, k), k)
  {
    if k == 1 {
      ExtendInOrder(a, TextGiven(p.endDate), "end_date", p.endDate.GetOr(""));
    } else if k == 2 {
      ExtendInOrder(a, DomainsGiven(p.domains), "domains", Join(p.domains.GetOr([]), ','));
    } else if k == 3 {
      ExtendInOrder(a, TextGiven(p.search), "search", p.search.GetOr(""));
    } else if k == 4 {
      ExtendInOrder(a, NumberGiven(p.page), "page", IntToString(p.page.GetOr(0)));
    } else {
      ExtendInOrder(a, NumberGiven(p.pageSize), "page_size", IntToString(p.pageSize.GetOr(0)));
    }
  }

  /** The first `k` slots are in append order and their names rank below `k`. */
  lemma {:induction false} StageRanked(p: FetchArticlesParams, k: nat)
    requires 1 <= k <= |PARAM_ORDER|
    ensures InParamOrder(Stage(p, k)) && RanksAtMost(Stage(p, k), k - 1)
  {
    if k == 1 {
      assert Stage(p, 1) == Slot(p, 0);
    } else {
      StageRanked(p, k - 1);
      SlotExtends(Stage(p, k - 1), p, k - 1);
    }
  }

  /**
   * The parameters appear in the fixed order start_date, end_date, domains,
   * search, page, page_size, each at most once, and only those names appear.
   */
  lemma QueryEntriesOrdered(p: FetchArticlesParams)
    ensures InParamOrder(QueryEntries(p))
    ensures forall i | 0 <= i < |QueryEntries(p)| :: QueryEntries(p)[i].0 in PARAM_ORDER
  {
    var query := QueryEntries(p);
    QueryEntriesStage(p);
    StageRanked(p, 6);
    forall i | 0 <= i < |query|
      ensures query[i].0 in PARAM_ORDER
    {
      KnownRank(query[i].0);
    }
  }

  /** With no arguments the query string is empty. */
  lemma NoParamsEmptyQuery()
    ensures QueryEntries(NO_PARAMS) == []
  {
  }

  /** A response as `fetch` resolves it: the `ok` flag and the parsed JSON body. */
  datatype HttpResponse<T> = HttpResponse(ok: bool, body: T)

  function CheckOk<T>(response: HttpResponse<T>, message: string): Result<T, string> {
    if response.ok then Ok(response.body) else Err(message)
  }

  /**
   * `fetchArticles(params)`: builds the query string, hands it to the transport
   * `send` (the `GET /articles` round trip) and rejects a non-ok response.
   */
  method FetchArticles(p: FetchArticlesParams, send: seq<QueryParam> -> HttpResponse<ArticlesResponse>)
    returns (r: Result<ArticlesResponse, string>)
    ensures r.Err? <==> !send(QueryEntries(p)).ok
    ensures r.Ok? ==> r.value == send(QueryEntries(p)).body
    ensures r.Err? ==> r.error == FETCH_ARTICLES_FAILED
  {
    var query := BuildQuery(p);
    r := CheckOk(send(query), FETCH_ARTICLES_FAILED);
  }

  /** `fetchDomainStats()` given the response of `GET /domains`. */
  function FetchDomainStats(response: HttpResponse<seq<DomainStats>>): (r: Result<seq<DomainStats>, string>)
    ensures r.Err? <==> !response.ok
    ensures r.Ok? ==> r.value == response.body
    ensures r.Err? ==> r.error == FETCH_STATS_FAILED
  {
    CheckOk(response, FETCH_STATS_FAILED)
  }

  /** `refreshFeed()` given the response of `POST /refresh`. */
  function RefreshFeed(response: HttpResponse<RefreshResponse>): (r: Result<RefreshResponse, string>)
    ensures r.Err? <==> !response.ok
    ensures r.Ok? ==> r.value == response.body
    ensures r.Err? ==> r.error == REFRESH_FAILED
  {
    CheckOk(response, REFRESH_FAILED)
  }

  /** `getRefreshStatus()` given the response of `GET /refresh/status`. */
  function GetRefreshStatus(response: HttpResponse<RefreshStatus>): (r: Result<RefreshStatus, string>)
    ensures r.Err? <==> !response.ok
    ensures r.Ok? ==> r.value == response.body
    ensures r.Err? ==> r.error == STATUS_FAILED
  {
    CheckOk(response, STATUS_FAILED)
  }
}
