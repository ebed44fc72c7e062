/**
 * The news service's endpoints: the paged, filtered article list, the domain
 * counts, and the refresh that runs in the background and ingests fresh
 * feed articles into the store, guarded by a process-wide flag.
 */
module Backend {
  import opened Wrappers
  import opened Text
  import opened Types
  import Api
  import Database
  import RssFetcher
  import Summarizer

  const DEFAULT_PAGE: int := 1
  const DEFAULT_PAGE_SIZE: int := 20
  const MAX_PAGE_SIZE: int := 100
  /** `fetch_rss_articles(max_articles_per_feed=10)` in the refresh task. */
  const REFRESH_PER_FEED: nat := 10

  const STATUS_IN_PROGRESS: string := "in_progress"
  const STATUS_STARTED: string := "started"
  const MESSAGE_IN_PROGRESS: string := "A refresh is already in progress"
  const MESSAGE_STARTED: string := "Refresh started in background"

  // ---------------------------------------------------------------------------
  // GET /articles

  /** The query of `GET /articles` once the framework has parsed it; a missing parameter is None. */
  datatype ListRequest = ListRequest(
    startDate: Option<string>,
    endDate: Option<string>,
    domains: Option<string>,
    search: Option<string>,
    page: Option<int>,
    pageSize: Option<int>)

  /** The framework's 422 answer: the parameters that break their bounds, in declaration order. */
  datatype ApiError = ValidationError(fields: seq<string>)

  function PageOf(req: ListRequest): int {
    req.page.GetOr(DEFAULT_PAGE)
  }

  function PageSizeOf(req: ListRequest): int {
    req.pageSize.GetOr(DEFAULT_PAGE_SIZE)
  }

  /** `page: int = Query(1, ge=1)` and `page_size: int = Query(20, ge=1, le=100)`. */
  function InvalidFields(req: ListRequest): (fields: seq<string>)
    ensures fields == [] <==> PageOf(req) >= 1 && 1 <= PageSizeOf(req) <= MAX_PAGE_SIZE
    ensures "page" in fields <==> PageOf(req) < 1
    ensures "page_size" in fields <==> PageSizeOf(req) < 1 || PageSizeOf(req) > MAX_PAGE_SIZE
  {
    (if PageOf(req) < 1 then ["page"] else [])
    + (if PageSizeOf(req) < 1 || PageSizeOf(req) > MAX_PAGE_SIZE then ["page_size"] else [])
  }

  /** `domains.split(",") if domains else None`. */
  function SplitDomains(domains: Option<string>): (list: Option<seq<string>>)
    ensures list.None? <==> domains.None? || domains.value == ""
    ensures list.Some? ==> |list.value| >= 1 && Join(list.value, ',') == domains.value
  {
    if domains.Some? && domains.value != "" then
      JoinSplit(domains.value, ',');
      Some(Split(domains.value, ','))
    else None
  }

  /** The filter `list_articles` hands to both queries. */
  function RequestFilter(req: ListRequest): Database.Filter {
    Database.Filter(req.startDate, req.endDate, SplitDomains(req.domains), req.search)
  }

  /** `offset = (page - 1) * page_size` for a valid request. */
  function Offset(req: ListRequest): nat
    requires InvalidFields(req) == []
  {
    MulNonNegative(PageOf(req) - 1, PageSizeOf(req));
    (PageOf(req) - 1) * PageSizeOf(req)
  }

  lemma MulNonNegative(a: nat, b: nat)
    ensures a * b >= 0
  {
  }

  lemma DivSplit(k: nat, b: nat)
    requires b > 0
    ensures k / b >= 0 && 0 <= k % b < b && (k / b) * b + k % b == k
  {
  }

  /**
   * `list_articles(...)`: a request that breaks a bound is refused; otherwise
   * the page of matching rows and the count of all matching rows, both under
   * the same filter, with the page number and size echoed.
   */
  function ListResponse(rows: seq<Article>, req: ListRequest): (r: Result<ArticlesResponse, ApiError>)
    ensures r.Err? <==> InvalidFields(req) != []
    ensures r.Err? ==> r.error == ValidationError(InvalidFields(req))
    ensures r.Ok? ==>
      && r.value.page == PageOf(req) && r.value.pageSize == PageSizeOf(req)
      && r.value.total == Database.CountMatching(rows, RequestFilter(req))
      && |r.value.articles| <= r.value.pageSize
  {
    if InvalidFields(req) != [] then Err(ValidationError(InvalidFields(req)))
    else
      var f := RequestFilter(req);
      Database.SelectPageSpec(rows, f, PageSizeOf(req), Offset(req));
      Ok(ArticlesResponse(Database.SelectPage(rows, f, PageSizeOf(req), Offset(req)),
                          Database.CountMatching(rows, f), PageOf(req), PageSizeOf(req)))
  }

  /**
   * The page is the slice of the matching rows, newest first, that starts at
   * the offset; it is full unless it is the last one, and empty past the end.
   */
  lemma ListPageContents(rows: seq<Article>, req: ListRequest)
    requires InvalidFields(req) == []
    ensures var r := ListResponse(rows, req);
      var sorted := Database.SortNewestFirst(Database.MatchingRows(rows, RequestFilter(req)));
      var offset := Offset(req);
      && r.Ok?
      && |r.value.articles| == (if offset >= r.value.total then 0
                                else if r.value.total - offset < r.value.pageSize then r.value.total - offset
                                else r.value.pageSize)
      && (forall k | 0 <= k < |r.value.articles| :: r.value.articles[k] == sorted[offset + k])
      && (forall a | a in r.value.articles :: a in rows && Database.Matches(a, RequestFilter(req)))
      && Database.NewestFirst(r.value.articles)
  {
    Database.SelectPageSpec(rows, RequestFilter(req), PageSizeOf(req), Offset(req));
  }

  /** The page whose offset window holds position `k` of the matching rows shows that row. */
  lemma MatchOnItsPage(rows: seq<Article>, req: ListRequest, k: nat)
    requires InvalidFields(req) == []
    requires k < Database.CountMatching(rows, RequestFilter(req))
    requires Offset(req) <= k < Offset(req) + PageSizeOf(req)
    ensures var r := ListResponse(rows, req);
      && r.Ok? && k - Offset(req) < |r.value.articles|
      && r.value.articles[k - Offset(req)]
         == Database.SortNewestFirst(Database.MatchingRows(rows, RequestFilter(req)))[k]
  {
    ListPageContents(rows, req);
  }

  /** Every position `k` lies in the window of page `k / page_size + 1`, so every match is on some page. */
  lemma PageOfPosition(req: ListRequest, k: nat)
    requires InvalidFields(req) == []
    requires PageOf(req) == k / PageSizeOf(req) + 1
    ensures Offset(req) <= k < Offset(req) + PageSizeOf(req)
  {
    DivSplit(k, PageSizeOf(req));
  }

  /** The filter the server reads back from a query string. */
  function QueryFilter(query: seq<Api.QueryParam>): Database.Filter {
    Database.Filter(Api.Lookup(query, "start_date"), Api.Lookup(query, "end_date"),
                    SplitDomains(Api.Lookup(query, "domains")), Api.Lookup(query, "search"))
  }

  /** No domain name contains a comma, and the list is not the single empty name. */
  predicate DomainsTransmittable(domains: Option<seq<string>>) {
    domains.Some? ==>
      && domains.value != [""]
      && forall i | 0 <= i < |domains.value| :: ',' !in domains.value[i]
  }

  lemma JoinNotEmpty(parts: seq<string>, sep: char)
    requires |parts| >= 1 && parts != [""]
    ensures Join(parts, sep) != ""
  {
    if |parts| > 1 {
      assert Join(parts, sep)[|parts[0]|] == sep;
    }
  }

  /**
   * The front end's query string carries its filter to the server intact:
   * the server derives the same WHERE conditions as the filter the front end
   * was given, with empty strings and empty lists counting as absent on both
   * sides.
   */
  lemma QueryPreservesFilter(p: Api.FetchArticlesParams)
    requires DomainsTransmittable(p.domains)
    ensures Database.Conditions(QueryFilter(Api.QueryEntries(p)))
         == Database.Conditions(Database.Filter(p.startDate, p.endDate, p.domains, p.search))
  {
    Api.QueryEntriesLookup(p);
    if Api.DomainsGiven(p.domains) {
      JoinNotEmpty(p.domains.value, ',');
      SplitJoin(p.domains.value, ',');
    }
  }

  /** The one list the query string cannot carry: a single empty domain name is dropped. */
  lemma EmptyDomainNameDropped(p: Api.FetchArticlesParams)
    requires p.domains == Some([""])
    ensures Api.Lookup(Api.QueryEntries(p), "domains") == Some("")
    ensures QueryFilter(Api.QueryEntries(p)).domains == None
  {
    Api.QueryEntriesLookup(p);
  }

  // ---------------------------------------------------------------------------
  // The refresh task

  /** What is stored for a new feed article: full text added, then the summary decided. */
  function Prepare(a: FeedArticle, download: (string, nat) -> RssFetcher.Download, model: Summarizer.Model): (r: FeedArticle)
    ensures r.link == a.link && r.title == a.title && r.domain == a.domain && r.source == a.source
  {
    Summarizer.SummarizeArticle(RssFetcher.Enrich(a, download), model)
  }

  /** The two updates of a new article in the loop: full text first, then the summary. */
  method PrepareArticle(a: FeedArticle, download: (string, nat) -> RssFetcher.Download, model: Summarizer.Model)
    returns (article: FeedArticle)
    ensures article == Prepare(a, download, model)
  {
    article := RssFetcher.Enrich(a, download);
    article := Summarizer.SummarizeArticle(article, model);
  }

  /** The articles the loop reaches: all of them, or those before the one that raises. */
  function Handled(articles: seq<FeedArticle>, failure: Option<nat>): (handled: seq<FeedArticle>)
    ensures failure.None? ==> handled == articles
    ensures failure.Some? ==> handled == Take(articles, failure.value)
  {
    if failure.Some? then Take(articles, failure.value) else articles
  }

  /** The table, next key and count of added rows after the loop of `perform_refresh`. */
  datatype Ingested = Ingested(rows: seq<Article>, nextId: int, added: nat)

  /**
   * The loop of `perform_refresh` over `batch`, in order: an article whose
   * link is stored is skipped; any other is prepared, stored under the next
   * key, and counted.
   */
  function Ingest(rows: seq<Article>, nextId: int, batch: seq<FeedArticle>,
                  download: (string, nat) -> RssFetcher.Download, model: Summarizer.Model, now: string): (r: Ingested)
    ensures |r.rows| == |rows| + r.added && r.nextId == nextId + r.added && r.added <= |batch|
    ensures r.rows[..|rows|] == rows
    decreases |batch|
  {
    if batch == [] then Ingested(rows, nextId, 0)
    else if Database.LinkStored(rows, batch[0].link) then Ingest(rows, nextId, batch[1..], download, model, now)
    else
      var row := Database.StoredRow(Prepare(batch[0], download, model), nextId, now);
      var r := Ingest(rows + [row], nextId + 1, batch[1..], download, model, now);
      assert r.rows[..|rows|] == (r.rows[..|rows| + 1])[..|rows|];
      Ingested(r.rows, r.nextId, r.added + 1)
  }

  lemma LinkStoredGrows(rows: seq<Article>, more: seq<Article>, link: string)
    requires Database.LinkStored(rows, link)
    ensures Database.LinkStored(rows + more, link)
  {
    var i :| 0 <= i < |rows| && rows[i].link == link;
    assert (rows + more)[i] == rows[i];
  }

  /** After the loop every link of the batch is stored. */
  lemma {:induction false} IngestStoresBatch(rows: seq<Article>, nextId: int, batch: seq<FeedArticle>,
                                             download: (string, nat) -> RssFetcher.Download, model: Summarizer.Model, now: string)
    ensures forall a | a in batch :: Database.LinkStored(Ingest(rows, nextId, batch, download, model, now).rows, a.link)
    decreases |batch|
  {
    if batch != [] {
      var r := Ingest(rows, nextId, batch, download, model, now);
      if Database.LinkStored(rows, batch[0].link) {
        IngestStoresBatch(rows, nextId, batch[1..], download, model, now);
        assert r.rows == r.rows[..|rows|] + r.rows[|rows|..];
        LinkStoredGrows(rows, r.rows[|rows|..], batch[0].link);
      } else {
        var row := Database.StoredRow(Prepare(batch[0], download, model), nextId, now);
        IngestStoresBatch(rows + [row], nextId + 1, batch[1..], download, model, now);
        assert r.rows == r.rows[..|rows| + 1] + r.rows[|rows| + 1..];
        assert r.rows[|rows|] == row;
      }
      forall a | a in batch
        ensures Database.LinkStored(r.rows, a.link)
      {
        if a != batch[0] {
          assert a in batch[1..];
        }
      }
    }
  }

  /** A batch whose links are all stored adds nothing. */
  lemma {:induction false} IngestAllStored(rows: seq<Article>, nextId: int, batch: seq<FeedArticle>,
                                           download: (string, nat) -> RssFetcher.Download, model: Summarizer.Model, now: string)
    requires forall a | a in batch :: Database.LinkStored(rows, a.link)
    ensures Ingest(rows, nextId, batch, download, model, now) == Ingested(rows, nextId, 0)
    decreases |batch|
  {
    if batch != [] {
      IngestAllStored(rows, nextId, batch[1..], download, model, now);
    }
  }

  /** Ingesting the same batch again adds nothing: a refresh is idempotent. */
  lemma IngestTwiceAddsNothing(rows: seq<Article>, nextId: int, batch: seq<FeedArticle>,
                               download: (string, nat) -> RssFetcher.Download, model: Summarizer.Model, now: string)
    ensures var r := Ingest(rows, nextId, batch, download, model, now);
      Ingest(r.rows, r.nextId, batch, download, model, now) == Ingested(r.rows, r.nextId, 0)
  {
    IngestStoresBatch(rows, nextId, batch, download, model, now);
    var r := Ingest(rows, nextId, batch, download, model, now);
    IngestAllStored(r.rows, r.nextId, batch, download, model, now);
  }

  /** One step of the loop. */
  lemma IngestStep(rows: seq<Article>, nextId: int, batch: seq<FeedArticle>,
                   download: (string, nat) -> RssFetcher.Download, model: Summarizer.Model, now: string)
    requires batch != []
    ensures Database.LinkStored(rows, batch[0].link) ==>
      Ingest(rows, nextId, batch, download, model, now) == Ingest(rows, nextId, batch[1..], download, model, now)
    ensures !Database.LinkStored(rows, batch[0].link) ==>
      var r := Ingest(rows + [Database.StoredRow(Prepare(batch[0], download, model), nextId, now)], nextId + 1,
                      batch[1..], download, model, now);
      Ingest(rows, nextId, batch, download, model, now) == Ingested(r.rows, r.nextId, r.added + 1)
  {
  }

  /** An article whose link is stored leaves the rest of the loop as it would be without it. */
  lemma IngestSkip(rows: seq<Article>, nextId: int, a: FeedArticle, tail: seq<FeedArticle>,
                   download: (string, nat) -> RssFetcher.Download, model: Summarizer.Model, now: string)
    requires Database.LinkStored(rows, a.link)
    ensures Ingest(rows, nextId, [a] + tail, download, model, now) == Ingest(rows, nextId, tail, download, model, now)
  {
    IngestStep(rows, nextId, [a] + tail, download, model, now);
    assert ([a] + tail)[1..] == tail;
  }

  /** An article with a new link is stored under `nextId` and counted before the rest of the loop. */
  lemma IngestAdd(rows: seq<Article>, nextId: int, a: FeedArticle, tail: seq<FeedArticle>,
                  download: (string, nat) -> RssFetcher.Download, model: Summarizer.Model, now: string)
    requires !Database.LinkStored(rows, a.link)
    ensures var r := Ingest(rows + [Database.StoredRow(Prepare(a, download, model), nextId, now)], nextId + 1,
                            tail, download, model, now);
      Ingest(rows, nextId, [a] + tail, download, model, now) == Ingested(r.rows, r.nextId, r.added + 1)
  {
    IngestStep(rows, nextId, [a] + tail, download, model, now);
    assert ([a] + tail)[1..] == tail;
  }

  /**
   * Every added row is the prepared form of a batch article whose link was
   * not stored before, under the keys counting up from `nextId`.
   */
  lemma {:induction false} IngestAddedRow(rows: seq<Article>, nextId: int, batch: seq<FeedArticle>,
                                          download: (string, nat) -> RssFetcher.Download, model: Summarizer.Model,
                                          now: string, k: nat)
    requires |rows| <= k < |Ingest(rows, nextId, batch, download, model, now).rows|
    ensures var r := Ingest(rows, nextId, batch, download, model, now);
      && r.rows[k].id == nextId + (k - |rows|)
      && exists j | 0 <= j < |batch| ::
           && !Database.LinkStored(rows, batch[j].link)
           && r.rows[k] == Database.StoredRow(Prepare(batch[j], download, model), nextId + (k - |rows|), now)
    decreases |batch|
  {
    var r := Ingest(rows, nextId, batch, download, model, now);
    var tail := batch[1..];
    IngestStep(rows, nextId, batch, download, model, now);
    if Database.LinkStored(rows, batch[0].link) {
      IngestAddedRow(rows, nextId, tail, download, model, now, k);
      var j :| 0 <= j < |tail| && !Database.LinkStored(rows, tail[j].link)
               && r.rows[k] == Database.StoredRow(Prepare(tail[j], download, model), nextId + (k - |rows|), now);
      assert tail[j] == batch[j + 1];
    } else {
      var row := Database.StoredRow(Prepare(batch[0], download, model), nextId, now);
      var grown := rows + [row];
      var rest := Ingest(grown, nextId + 1, tail, download, model, now);
      assert r.rows == rest.rows;
      if k == |rows| {
        assert rest.rows[..|grown|] == grown;
        assert r.rows[k] == grown[k] == row;
      } else {
        IngestAddedRow(grown, nextId + 1, tail, download, model, now, k);
        var j :| 0 <= j < |tail| && !Database.LinkStored(grown, tail[j].link)
                 && rest.rows[k] == Database.StoredRow(Prepare(tail[j], download, model), nextId + 1 + (k - |grown|), now);
        assert tail[j] == batch[j + 1];
        if Database.LinkStored(rows, tail[j].link) {
          LinkStoredGrows(rows, [row], tail[j].link);
        }
      }
    }
  }

  /** Ingesting keeps the links of the table unique. */
  lemma {:induction false} IngestKeepsLinksUnique(rows: seq<Article>, nextId: int, batch: seq<FeedArticle>,
                                                  download: (string, nat) -> RssFetcher.Download, model: Summarizer.Model, now: string)
    requires Database.UniqueLinks(rows)
    ensures Database.UniqueLinks(Ingest(rows, nextId, batch, download, model, now).rows)
    decreases |batch|
  {
    if batch != [] {
      if Database.LinkStored(rows, batch[0].link) {
        IngestKeepsLinksUnique(rows, nextId, batch[1..], download, model, now);
      } else {
        var row := Database.StoredRow(Prepare(batch[0], download, model), nextId, now);
        var grown := rows + [row];
        forall i, j | 0 <= i < j < |grown|
          ensures grown[i].link != grown[j].link
        {
          if j == |rows| {
            assert grown[i] == rows[i];
          }
        }
        IngestKeepsLinksUnique(grown, nextId + 1, batch[1..], download, model, now);
      }
    }
  }

  /** The service state: the store and the module-level `is_refreshing` flag. */
  class Server {
    var db: Database.Database
    var isRefreshing: bool

    ghost predicate Valid()
      reads this, db
    {
      db.Valid()
    }

    /** Start-up: `init_database()` on a fresh store, no refresh running. */
    constructor ()
      ensures Valid() && fresh(db) && db.rows == [] && !isRefreshing
    {
      db := new Database.Database();
      isRefreshing := false;
    }

    /** `GET /articles`. */
    method ListArticles(req: ListRequest) returns (r: Result<ArticlesResponse, ApiError>)
      ensures r == ListResponse(db.rows, req)
    {
      var fields := InvalidFields(req);
      if fields != [] {
        return Err(ValidationError(fields));
      }
      var page, pageSize := PageOf(req), PageSizeOf(req);
      var domainList := SplitDomains(req.domains);
      var offset := Offset(req);
      var filter := Database.Filter(req.startDate, req.endDate, domainList, req.search);
      var articles := db.GetArticles(filter, pageSize, offset);
      var total := db.GetArticleCount(filter);
      r := Ok(ArticlesResponse(articles, total, page, pageSize));
    }

    /** `GET /domains`: every stored domain once, with its row count, most frequent first. */
    method ListDomains() returns (stats: seq<DomainStats>)
      ensures stats == Database.DomainStatistics(db.rows)
      ensures forall i | 0 <= i < |stats| :: stats[i].count == Database.CountDomain(db.rows, stats[i].domain)
      ensures Database.StatsTotal(stats) == |db.rows|
    {
      stats := db.GetDomainStatistics();
      Database.DomainStatisticsSpec(db.rows);
    }

    /**
     * `POST /refresh`: while the flag is set the answer is "in_progress" and
     * nothing is scheduled; otherwise the task is scheduled. The flag itself
     * is only set once the task runs.
     */
    method RefreshFeed() returns (response: RefreshResponse, scheduled: bool)
      ensures scheduled <==> !isRefreshing
      ensures response.newArticles == 0
      ensures isRefreshing ==> response.status == STATUS_IN_PROGRESS && response.message == MESSAGE_IN_PROGRESS
      ensures !isRefreshing ==> response.status == STATUS_STARTED && response.message == MESSAGE_STARTED
    {
      if isRefreshing {
        return RefreshResponse(STATUS_IN_PROGRESS, MESSAGE_IN_PROGRESS, 0), false;
      }
      response, scheduled := RefreshResponse(STATUS_STARTED, MESSAGE_STARTED, 0), true;
    }

    /** `GET /refresh/status`. */
    function RefreshStatus(): (status: Types.RefreshStatus)
      reads this
      ensures status.isRefreshing <==> isRefreshing
    {
      Types.RefreshStatus(isRefreshing)
    }

    /**
     * `perform_refresh()`: sets the flag, fetches up to ten entries per feed,
     * hands them to the loop, and clears the flag however the loop ends.
     * `parse`, `download`, `model` and `now` stand for the network, the
     * summarisation model and the clock; `failure` is as in `IngestArticles`.
     */
    method PerformRefresh(parse: string -> seq<RssFetcher.FeedEntry>, download: (string, nat) -> RssFetcher.Download,
                          model: Summarizer.Model, now: string, failure: Option<nat>)
      returns (newArticlesCount: nat)
      requires Valid()
      modifies this, db
      ensures Valid() && db == old(db) && !isRefreshing
      ensures var fetched := RssFetcher.FetchedRecords(RssFetcher.RSS_FEEDS, RssFetcher.DOMAIN_KEYWORDS, REFRESH_PER_FEED, parse, now);
        Ingested(db.rows, db.nextId, newArticlesCount) == Ingest(old(db.rows), old(db.nextId), Handled(fetched, failure), download, model, now)
    {
      isRefreshing := true;
      var articles := RssFetcher.FetchRssArticles(REFRESH_PER_FEED, parse, now);
      newArticlesCount := IngestArticles(articles, download, model, now, failure);
      isRefreshing := false;
    }

    /**
     * One pass of the loop body: an article whose link is stored is skipped
     * (None); any other is enriched, summarised and inserted, and the insert's
     * key is returned. `tail` stands for the articles the loop handles after
     * this one.
     */
    method HandleArticle(article: FeedArticle, ghost tail: seq<FeedArticle>,
                         download: (string, nat) -> RssFetcher.Download, model: Summarizer.Model, now: string)
      returns (result: Option<int>)
      requires db.Valid()
      modifies db
      ensures db.Valid()
      ensures var after := Ingest(db.rows, db.nextId, tail, download, model, now);
        Ingest(old(db.rows), old(db.nextId), [article] + tail, download, model, now)
        == Ingested(after.rows, after.nextId, after.added + if result.Some? then 1 else 0)
    {
      if db.ArticleExists(article.link) {
        IngestSkip(db.rows, db.nextId, article, tail, download, model, now);
        return None;
      }
      ghost var rows0, next0 := db.rows, db.nextId;
      IngestAdd(rows0, next0, article, tail, download, model, now);
      var prepared := PrepareArticle(article, download, model);
      result := db.InsertArticle(prepared, now);
      assert result.Some? && db.nextId == next0 + 1;
      assert db.rows == rows0 + [Database.StoredRow(Prepare(article, download, model), next0, now)];
    }

    /**
     * The loop of `perform_refresh` over the fetched articles, as `Ingest`
     * describes. `failure`, when given, is the position of the article whose
     * handling raises: the loop stops there and what was stored before it
     * stays.
     */
    method IngestArticles(articles: seq<FeedArticle>, download: (string, nat) -> RssFetcher.Download,
                          model: Summarizer.Model, now: string, failure: Option<nat>)
      returns (newArticlesCount: nat)
      requires Valid()
      modifies db
      ensures Valid()
      ensures Ingested(db.rows, db.nextId, newArticlesCount)
           == Ingest(old(db.rows), old(db.nextId), Handled(articles, failure), download, model, now)
    {
      newArticlesCount := 0;
      ghost var handled := Handled(articles, failure);
      ghost var goal := Ingest(db.rows, db.nextId, handled, download, model, now);
      var i := 0;
      while i < |articles|
        invariant 0 <= i <= |handled| <= |articles|
        invariant handled == articles[..|handled|]
        invariant failure.Some? && failure.value < |articles| ==> |handled| == failure.value
        invariant (failure.None? || failure.value >= |articles|) ==> |handled| == |articles|
        invariant db.Valid()
        invariant var rest := Ingest(db.rows, db.nextId, handled[i..], download, model, now);
          goal == Ingested(rest.rows, rest.nextId, newArticlesCount + rest.added)
      {
        if failure == Some(i) {
          // the exception leaves the loop; `finally` still runs
          assert handled[i..] == [];
          break;
        }
        SplitAt(handled, i);
        assert handled[i] == articles[i];
        var result := HandleArticle(articles[i], handled[i + 1..], download, model, now);
        if result.Some? {
          newArticlesCount := newArticlesCount + 1;
        }
        i := i + 1;
      }
    }
  }
}
