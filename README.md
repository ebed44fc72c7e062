# Scientific News Summarizer — a verified model of its core

The system is a dashboard of summarised science news. A React page lists stored
articles with filters (domains, a date range, a free-text search) and pagination,
shows a bar chart of article counts per scientific domain, and offers a
"Refresh Feed" button. Behind it, a small FastAPI service keeps articles in an
SQLite table. On a refresh it reads five RSS feeds, classifies every entry into a
domain by keyword scores, downloads the full text, summarises it with a
summarisation model and stores the new articles.

This project models that core in Dafny, one module per source file:

- `App` — the dashboard page (`src/App.tsx`). The React state is the class
  `App.Dashboard`, and every handler is a method. A timer firing or a request
  settling is an explicit event method (`DebounceFired`, `PollReturned`,
  `ArticlesResponseArrived`, …). A callback created during a render sees the
  state of that render. So the debounce timer keeps the state captured at the
  last search change, and the reload after a refresh uses the state captured at
  the click. The requests the page sends are logged in fields, so "one request"
  can be stated.
- `FilterSidebar` — domain toggling, the date inputs and "Clear All Filters"
  (`src/components/FilterSidebar.tsx`), as the callback calls they make.
- `Api` — the query string of `fetchArticles`, built by conditional `append`s on
  a `URLSearchParams` object (the class `Api.SearchParams`), and the
  non-ok-response rule of all four calls (`src/services/api.ts`).
- `DomainChart` — the chart's empty guard, largest count, total and colour
  lookup (`src/components/DomainChart.tsx`).
- `Backend` — the endpoints of `backend/main.py`. The class `Backend.Server`
  holds the store and the module-level `is_refreshing` flag. `GET /articles`
  validation, the domain split and offset, the refresh guard, and the ingest
  loop of `perform_refresh` are modelled.
- `Database` — `backend/database.py`. The SQL text and the bound parameters are
  built step by step, exactly as in the source. What SQLite returns for them is
  given by functions over an in-memory table (the class `Database.Database`).
  These functions read the same list of conditions the SQL text is made from.
  The filter code that `get_articles` and `get_article_count` duplicate is
  modelled once, as `Database.AppendFilters`.
- `RssFetcher` — `detect_domain` (its two loops as methods proved against a
  declarative rule), the tag-stripping regular expression, the per-entry record
  built by `fetch_rss_articles`, and the retry loop of `extract_article_text`
  (`backend/rss_fetcher.py`).
- `Summarizer` — the summary policy of `backend/summarizer.py`. The model is an
  uninterpreted function that may fail.
- `Types`, `Text` and `Wrappers` hold the record shapes of `src/types/article.ts`
  and the back end's dictionaries, the string operations of the two languages,
  and Option/Result.

Parameters stand for what the model cannot see: `send`/`parse`/`download` for
the network and the feed and page parsers, `model` for the summarisation
pipeline, `now` for `datetime.now()`, and `failure` for the position of an
article whose handling raises inside `perform_refresh`.

The search debounce sends at most one list request per firing, not always
exactly one. When the captured page was not 1 but the current page is already 1,
`setPage(1)` changes nothing, so no effect runs. `App.Dashboard.DebounceFired`
states all three cases.

## Model

| member | source | states |
|---|---|---|
| Api.SearchParams.constructor | src/services/api.ts:15 | a new `URLSearchParams` holds no pairs |
| Api.SearchParams.Append | src/services/api.ts:17-24 | `append` adds the pair at the end and keeps the earlier pairs |
| Api.BuildQuery | src/services/api.ts:15-24 | the sequence of conditional appends yields exactly `QueryEntries(p)` |
| Api.QueryEntriesStage | src/services/api.ts:15-24 | the pairs of the six conditional appends are the six argument slots taken in order |
| Api.SlotExtends | src/services/api.ts:17-24 | appending slot k to pairs in argument order that come from earlier slots keeps them in argument order |
| Api.StageRanked | src/services/api.ts:17-24 | after k slots every name comes from the first k slots and the names are in argument order, each at most once |
| Api.QueryEntriesLookup | src/services/api.ts:17-24 | each parameter is on the query string exactly when its value is truthy (empty string, undefined and 0 are dropped), with that value; `domains` only for a non-empty list, as its elements joined with ',' |
| Api.QueryEntriesLookupAt | src/services/api.ts:17-24 | the value under any key is that of the first argument slot carrying it, or absent |
| Api.LookupAppend | src/services/api.ts:17-24 | reading a name from a concatenation finds the first part's pair before the second's |
| Api.QueryEntriesOrdered | src/services/api.ts:14-24 | names appear in the order start_date, end_date, domains, search, page, page_size, each at most once, and no other name appears |
| Api.NoParamsEmptyQuery | src/services/api.ts:14-24 | with no arguments the query string is empty |
| Api.FetchArticles | src/services/api.ts:14-32 | the transport is given the built query; the result is an error exactly when the response is not ok (with the fixed message), else the body |
| Api.FetchDomainStats | src/services/api.ts:34-41 | error exactly on a non-ok response, else the parsed body |
| Api.RefreshFeed | src/services/api.ts:43-52 | error exactly on a non-ok response, else the parsed body |
| Api.GetRefreshStatus | src/services/api.ts:54-61 | error exactly on a non-ok response, else the parsed body |
| FilterSidebar.Toggled | src/components/FilterSidebar.tsx:24-30 | the toggled domain is in the new selection iff it was not in the old one; every other domain's membership is unchanged |
| FilterSidebar.WithoutMembers | src/components/FilterSidebar.tsx:26 | `filter(d => d !== domain)` drops the domain and keeps exactly the other members |
| FilterSidebar.WithoutIsSubsequence | src/components/FilterSidebar.tsx:26 | the filtered list keeps the remaining domains in their order |
| FilterSidebar.WithoutCounts | src/components/FilterSidebar.tsx:26 | the filtered list holds the domain 0 times and every other domain as often as before |
| FilterSidebar.ToggleSelectedRemoves | src/components/FilterSidebar.tsx:25-26 | toggling a selected domain removes every occurrence and keeps the others, in order and with their multiplicity |
| FilterSidebar.ToggleUnselectedAppends | src/components/FilterSidebar.tsx:27-28 | toggling an unselected domain appends it; the old selection is a prefix of the new one |
| FilterSidebar.WithoutAbsent | src/components/FilterSidebar.tsx:26 | filtering out a domain that is not there changes nothing |
| FilterSidebar.WithoutAppended | src/components/FilterSidebar.tsx:26-28 | filtering out a domain just appended undoes the append |
| FilterSidebar.ToggleTwiceUnselected | src/components/FilterSidebar.tsx:24-30 | toggling an absent domain twice gives back exactly the original list |
| FilterSidebar.ToggleTwiceSelected | src/components/FilterSidebar.tsx:24-30 | toggling a present domain twice restores the same set of domains; the domain moves to the end |
| FilterSidebar.WithoutNoDuplicates | src/components/FilterSidebar.tsx:26 | filtering keeps a duplicate-free list duplicate-free |
| FilterSidebar.ToggleKeepsNoDuplicates | src/components/FilterSidebar.tsx:24-30 | a duplicate-free selection stays duplicate-free under toggling |
| FilterSidebar.ToggleFlipsOneCheckbox | src/components/FilterSidebar.tsx:99-100 | a click flips the clicked box's `checked` and no other box's |
| DomainChart.ColorFor | src/components/DomainChart.tsx:8-20 | a known domain gets its table colour, any other domain 'bg-gray-500' |
| DomainChart.MaxCount | src/components/DomainChart.tsx:27 | the largest count is at least every count and equal to one of them |
| DomainChart.TotalFromIsSum | src/components/DomainChart.tsx:28 | the left fold from an initial total adds the sum of all counts |
| DomainChart.Render | src/components/DomainChart.tsx:22-50 | nothing is rendered exactly for missing or empty stats; otherwise the maximum, the total (sum from 0) and one bar per entry in order with its colour |
| DomainChart.BarRatioAtMostOne | src/components/DomainChart.tsx:49 | for non-negative counts each bar's count/maxCount ratio lies in [0, 1] |
| Text.SplitJoin | backend/main.py:72 | splitting on ',' the ','-joined non-empty list gives the list back when no element holds a comma |
| Text.JoinSplit | backend/main.py:72 | joining the parts of a split gives the string back |
| Database.AppendFilters | backend/database.py:73-92 | the shared filter part: after the head, one `AND` condition per active filter in source order, and its parameters in the same order |
| Database.AddStartDate | backend/database.py:76-78 | a truthy start date appends its condition and binds the date; otherwise text and parameters are unchanged |
| Database.AddEndDate | backend/database.py:80-82 | a truthy end date appends its condition and binds the date; otherwise nothing changes |
| Database.AddDomains | backend/database.py:84-87 | a given non-empty domain list appends `IN (...)` and binds the domains in order; otherwise nothing changes |
| Database.AddSearch | backend/database.py:89-92 | a truthy search appends the title-or-summary match and binds the `%q%` pattern twice; otherwise nothing changes |
| Database.BuildArticlesQuery | backend/database.py:73-95 | the listing statement is the filter part followed by ORDER BY … LIMIT ? OFFSET ?; its parameters end with limit then offset; there is one '?' per parameter |
| Database.BuildCountQuery | backend/database.py:111-130 | the counting statement uses the same conditions and parameters as the listing, without paging; one '?' per parameter |
| Database.ArticlesQueryPlaceholders | backend/database.py:73-97 | the listing statement's '?' count equals its parameter count |
| Database.CountQueryPlaceholders | backend/database.py:111-132 | the counting statement's '?' count equals its parameter count |
| Database.ConditionsOfFilter | backend/database.py:76-92 | a date condition is present iff its bound is truthy; the domain condition iff the list is given and non-empty; the search condition iff the query is truthy; nothing else is added |
| Database.ConditionParamsShape | backend/database.py:84-92 | the domain condition binds one parameter per domain, in order; the search condition binds two identical `%q%` parameters |
| Database.InPlaceholdersCount | backend/database.py:85 | `','.join('?' * n)` holds exactly n '?' |
| Database.ConditionPlaceholders | backend/database.py:76-92 | each condition's text has exactly as many '?' as the parameters it binds |
| Database.MatchesMeaning | backend/database.py:76-92 | a row matches iff every active filter holds: string-ordered date bounds, domain membership, search in title or summary |
| Database.MatchingRowsSpec | backend/database.py:73-92 | the WHERE clause keeps exactly the matching rows, each as often as in the table |
| Database.InsertByDatePerm | backend/database.py:94 | inserting a row into the ordered rows adds exactly that row |
| Database.InsertByDateOrdered | backend/database.py:94 | inserting a row into rows ordered newest first keeps them newest first |
| Database.SortNewestFirstSpec | backend/database.py:94 | ORDER BY published_date DESC is a permutation of its input, newest first |
| Database.SortedMatching | backend/database.py:73-94 | the matching rows ordered newest first are as many as the count, and each is a matching row of the table |
| Database.PageWindow | backend/database.py:94 | `LIMIT limit OFFSET offset` over newest-first rows gives the rows from position offset on, at most limit of them, still newest first |
| Database.SelectPageSpec | backend/database.py:94-100 | a page holds at most `limit` matching rows, newest first, starting after `offset` of them; its size is what is left of the count |
| Database.TallySpec | backend/database.py:139-142 | GROUP BY domain gives one entry per domain present, with its row count, adding up to the number of rows |
| Database.InsertByCountSpec | backend/database.py:143 | inserting an entry into the ordered list adds exactly that entry |
| Database.SortByCountDescSpec | backend/database.py:143 | ORDER BY count DESC is a permutation sorted by non-increasing count, with the same domains and sums |
| Database.DomainStatisticsSpec | backend/database.py:136-146 | one entry per distinct domain with its row count (at least 1), in non-increasing count order, counts summing to the number of rows |
| Database.Database.constructor | backend/database.py:22-40 | initialisation on a fresh database file gives an empty table with unique links and increasing keys |
| Database.Database.ArticleExists | backend/database.py:148-152 | true iff some row has the link |
| Database.Database.InsertArticle | backend/database.py:29-60 | a new link is stored under the next key, which is returned; an existing link changes nothing and gives None (UNIQUE violation); the table stays valid |
| Database.Database.GetArticles | backend/database.py:62-100 | the page of matching rows for the built statement, at most `limit` rows, all from the table and matching |
| Database.Database.GetArticleCount | backend/database.py:102-134 | the number of matching rows, at most the table size |
| Database.Database.GetDomainStatistics | backend/database.py:136-146 | the per-domain counts, in non-increasing order, summing to the table size |
| RssFetcher.KeywordScore | backend/rss_fetcher.py:32 | the score is at most the number of keywords, and 0 exactly when no lower-cased keyword occurs in the text |
| RssFetcher.MatchedCons | backend/rss_fetcher.py:32 | the keywords of a list that occur are its first keyword, when it occurs, together with those of the rest |
| RssFetcher.KeywordScoreCounts | backend/rss_fetcher.py:32 | with no keyword listed twice, the score is the number of distinct keywords that occur |
| RssFetcher.Scores | backend/rss_fetcher.py:31-32 | one score per domain, in table order |
| RssFetcher.FirstMaxIndex | backend/rss_fetcher.py:37 | Python's `max` picks a largest score, with every earlier score strictly smaller |
| RssFetcher.FirstMaxUnique | backend/rss_fetcher.py:37 | the tie-break is deterministic: the first maximum is unique |
| RssFetcher.DetectDomain | backend/rss_fetcher.py:27-39 | `detect_domain` returns the classification of the lower-cased "title summary" under DOMAIN_KEYWORDS |
| RssFetcher.DetectDomainWith | backend/rss_fetcher.py:27-39 | the same two-phase procedure over any keyword table equals the classification rule |
| RssFetcher.CollectScores | backend/rss_fetcher.py:30-34 | the first loop keeps exactly the positive scores, in table order, with their domains |
| RssFetcher.FirstLargest | backend/rss_fetcher.py:36-37 | the scan returns an entry with the largest score, every earlier entry strictly smaller |
| RssFetcher.ClassifyGeneral | backend/rss_fetcher.py:36-39 | "General Science" comes out exactly when no keyword of any domain occurs |
| RssFetcher.ClassifyMaximal | backend/rss_fetcher.py:30-37 | otherwise the result is the earliest domain with the maximal score |
| RssFetcher.ClassifyKnown | backend/rss_fetcher.py:15-39 | the result is a domain of the table or "General Science" |
| RssFetcher.DetectionIgnoresCase | backend/rss_fetcher.py:28 | lower-casing title or summary beforehand changes nothing |
| RssFetcher.StripTags | backend/rss_fetcher.py:76 | removing tags never lengthens the text |
| RssFetcher.StripTagsPlain | backend/rss_fetcher.py:76 | text without '<' is unchanged |
| RssFetcher.StripLeadingTag | backend/rss_fetcher.py:76 | a leading tag `<name>` is removed and the rest is processed on its own |
| RssFetcher.SummaryText | backend/rss_fetcher.py:75-76 | the summary is a prefix of the tag-stripped summary-or-description, at most 500 characters, and all of it when that is short enough |
| RssFetcher.EntryRecord | backend/rss_fetcher.py:63-88 | an entry yields no record iff its link is missing or empty; otherwise title (default 'No Title'), link, stripped summary, detected domain, empty full text, the feed's name, and the date: the published date, else the updated date, else the current time |
| RssFetcher.FetchArticlesWith | backend/rss_fetcher.py:54-100 | the nested loops produce the records feed by feed, each feed limited to its first `maxPerFeed` entries, entries in feed order |
| RssFetcher.FetchRssArticles | backend/rss_fetcher.py:54-100 | `fetch_rss_articles` over RSS_FEEDS and DOMAIN_KEYWORDS yields those records |
| RssFetcher.FeedRecordsShape | backend/rss_fetcher.py:66-88 | every record has a non-empty link, empty full text, a summary of at most 500 characters, its feed's name and a known domain |
| RssFetcher.FeedRecordsAllLinked | backend/rss_fetcher.py:61-90 | when every entry has a link, one record per entry, in order |
| RssFetcher.FeedRecordsLength | backend/rss_fetcher.py:61-90 | a feed yields at most one record per entry |
| RssFetcher.FetchedRecordsCount | backend/rss_fetcher.py:57-61 | each feed appends at most `max_articles_per_feed` records, all carrying its name, after those of the feeds before it; hence at most `|feeds| * max_articles_per_feed` records in all |
| RssFetcher.FetchedRecordsShape | backend/rss_fetcher.py:57-90 | every record over all feeds has a link, an empty full text, a summary of at most 500 characters, a domain of the keyword table or 'General Science', and the name of one of the feeds |
| RssFetcher.ExtractFrom | backend/rss_fetcher.py:42-52 | the text is empty or the text of one of the remaining attempts |
| RssFetcher.ExtractArticleText | backend/rss_fetcher.py:41-52 | the text is empty or the text of one of the attempts |
| RssFetcher.ExtractAllFailed | backend/rss_fetcher.py:48-52 | when every attempt fails the text is empty |
| RssFetcher.ExtractFirstSuccess | backend/rss_fetcher.py:42-47 | the first successful attempt decides the text |
| RssFetcher.Enrich | backend/rss_fetcher.py:102-110 | only the full text changes, and it is empty or a download's text |
| Summarizer.ModelInput | backend/summarizer.py:25 | the model sees a prefix of at most 1024 characters, the whole text when short |
| Summarizer.Fallback | backend/summarizer.py:40 | the fallback is the first (at most) 200 characters followed by "..." |
| Summarizer.GenerateSummary | backend/summarizer.py:18-40 | a text that is empty or whose stripped length is below 100 comes back unchanged; otherwise the model's summary, or the fallback when the model fails |
| Summarizer.ShortTextUnchanged | backend/summarizer.py:19-20 | a text under 100 characters never reaches the model |
| Summarizer.GenerateSummaryCases | backend/summarizer.py:22-40 | a summarisable text yields the model's answer for a prefix of at most 1024 characters, or an excerpt of its leading characters plus "..." |
| Summarizer.TextToSummarize | backend/summarizer.py:43 | the full text when non-empty, else the summary |
| Summarizer.SummarizeArticle | backend/summarizer.py:42-50 | only the summary may change: generated when the text is longer than 200 characters; an empty summary becomes the text or "No summary available."; otherwise kept |
| Summarizer.ShortTextGetsSummary | backend/summarizer.py:47-48 | without a long text the article always ends with a non-empty summary |
| Summarizer.NoTextPlaceholder | backend/summarizer.py:48 | an article with no text gets "No summary available." |
| Summarizer.SummarizeShortIdempotent | backend/summarizer.py:42-50 | summarising again an article with a short full text changes nothing |
| Backend.InvalidFields | backend/main.py:69-70 | the request is valid iff page ≥ 1 and 1 ≤ page_size ≤ 100, each failing bound naming its field |
| Backend.SplitDomains | backend/main.py:72 | a missing or empty string gives no domain filter; otherwise a non-empty list whose ','-join is the string |
| Backend.ListResponse | backend/main.py:63-97 | invalid requests are refused; otherwise the page and page size are echoed, `total` counts the matches of the same filter, and the page holds at most page_size rows |
| Backend.ListPageContents | backend/main.py:74-97 | the page is the slice of the matching rows, newest first, starting at (page−1)·page_size; full unless last, empty past the end |
| Backend.MatchOnItsPage | backend/main.py:74-83 | a match at position k appears on the page whose window covers k |
| Backend.PageOfPosition | backend/main.py:74 | position k lies in the window of page k / page_size + 1, so every match is on some page |
| Backend.QueryPreservesFilter | backend/main.py:72-90 | the query string the front end builds (`fetchArticles` in src/services/api.ts) gives the server the same WHERE conditions as the front end's filter, for domain names without commas |
| Backend.EmptyDomainNameDropped | backend/main.py:72 | a selection of the single empty name is sent as "" and read back as no filter |
| Backend.Prepare | backend/main.py:139-141 | enrichment and summarising keep link, title, domain and source |
| Backend.PrepareArticle | backend/main.py:139-141 | the full-text update followed by the summary update give the prepared article |
| Backend.Handled | backend/main.py:132-151 | the loop handles every article, or those before the one that raises |
| Backend.Ingest | backend/main.py:132-146 | the loop only appends rows, one per counted article, with keys counting up |
| Backend.IngestStep | backend/main.py:133-146 | an article whose link exists is skipped; any other is stored under the next key and counted |
| Backend.IngestSkip | backend/main.py:133-135 | an article whose link is stored leaves the rest of the loop as it would be without it |
| Backend.IngestAdd | backend/main.py:139-146 | an article with a new link is stored under the next key and counted, then the rest of the loop runs on the grown table |
| Backend.IngestStoresBatch | backend/main.py:132-146 | after the loop every link of the batch is stored |
| Backend.IngestAllStored | backend/main.py:133-135 | a batch whose links are all stored adds nothing |
| Backend.IngestTwiceAddsNothing | backend/main.py:132-146 | running the loop again on the same batch adds nothing |
| Backend.IngestAddedRow | backend/main.py:139-146 | every added row is the prepared form of a batch article whose link was new, under the next key |
| Backend.IngestKeepsLinksUnique | backend/main.py:132-146 | the loop keeps the links of the table unique |
| Backend.Server.constructor | backend/main.py:29-57 | start-up on a fresh database file: an empty valid store, no refresh running |
| Backend.Server.ListArticles | backend/main.py:63-97 | `GET /articles` answers `ListResponse` over the stored rows |
| Backend.Server.ListDomains | backend/main.py:99-102 | every stored domain with its row count, counts summing to the table size |
| Backend.Server.RefreshFeed | backend/main.py:104-121 | "in_progress" and nothing scheduled while the flag is set, else "started" and the task scheduled; `new_articles` is 0 and the flag is not changed |
| Backend.Server.RefreshStatus | backend/main.py:156-160 | reports the flag |
| Backend.Server.PerformRefresh | backend/main.py:123-154 | fetches up to ten entries per feed, runs the ingest loop on them (up to a failure), and always leaves the flag cleared |
| Backend.Server.HandleArticle | backend/main.py:133-146 | one iteration: skipped for a stored link, otherwise prepared, inserted and reported; the loop's outcome over the remaining articles is kept |
| Backend.Server.IngestArticles | backend/main.py:132-151 | the loop's table, next key and count equal `Ingest` of the handled articles; the table stays valid |
| App.RequestQuery | src/App.tsx:45-52 | the request omits empty start date, end date, domains and search, carries the others as they are, and always carries the page and page size 20 |
| App.ChangesResetPage | src/App.tsx:115-124 | any sidebar interaction sets page back to 1 and keeps the search |
| App.ClearFiltersResets | src/components/FilterSidebar.tsx:32-35 | clearing gives no domains, empty dates and, through the dashboard's callbacks, page 1 |
| App.DateInputsKeepOtherDate | src/components/FilterSidebar.tsx:73-82 | editing one date sets it, keeps the other and, through the dashboard's callback, resets the page |
| App.TotalPages | src/App.tsx:126 | the page count is the ceiling of total/20 |
| App.PagesStayInRange | src/App.tsx:233-243 | Previous gives max(1, page−1) and Next min(totalPages, page+1); a page in range stays in range |
| App.DisabledExactlyAtEnds | src/App.tsx:234-244 | a button is disabled exactly when clicking it would not move the page, for any page and page count (a page past the last, left by a stale reload, included) |
| App.NextReachesEveryPage | src/App.tsx:243 | from page 1, n clicks on Next reach page n+1 while it exists |
| App.EmptyMessage | src/App.tsx:213-215 | "Try adjusting…" exactly when search, a domain or a date is set; otherwise the refresh prompt |
| App.Dashboard.MainListing | src/App.tsx:204-252 | spinner exactly while loading; the hint exactly when loaded and empty; else the cards, with pagination iff more than one page |
| App.Dashboard.LoadArticles | src/App.tsx:40-52 | a load clears the error, sets loading and sends the request of the captured state |
| App.Dashboard.FilterEffect | src/App.tsx:73-76 | the effect loads articles with the current state and requests domain statistics |
| App.Dashboard.constructor | src/App.tsx:11-88 | the initial state; the first render sends one list request and one statistics request and arms the debounce |
| App.Dashboard.ArticlesResponseArrived | src/App.tsx:54-61 | success replaces articles and total; failure sets the fixed message and keeps both; loading ends either way |
| App.Dashboard.StatsResponseArrived | src/App.tsx:64-71 | success replaces the statistics; failure changes nothing |
| App.Dashboard.HandleSidebar | src/App.tsx:73-124 | the state becomes the applied changes; the effect runs once (one list and one statistics request) iff a dependency changed |
| App.Dashboard.ApplySidebarChanges | src/App.tsx:115-124 | the callbacks' updates give the applied changes; nothing is sent, shown or timed; the result says whether a domain change occurred |
| App.Dashboard.SearchInput | src/App.tsx:78-88 | the search changes at once; a new value re-arms the debounce with the new state |
| App.Dashboard.DebounceFired | src/App.tsx:79-85 | captured page 1: a load with the captured state; else page set to 1 and one load through the page effect if that changed the page; each load sets the spinner and clears the error; with no load nothing shown or sent changes; never more than one list request |
| App.Dashboard.ClickPrevious | src/App.tsx:233-234 | disabled at page 1; else page−1 and one load, which sets the spinner and clears the error; articles, total, statistics and refresh requests unchanged |
| App.Dashboard.ClickNext | src/App.tsx:243-244 | disabled at the last page; else page+1 (never past the last) and one load, which sets the spinner and clears the error; articles, total, statistics and refresh requests unchanged |
| App.Dashboard.ClickRefresh | src/App.tsx:90-93 | ignored while refreshing; else the flag goes up and one refresh request is sent |
| App.Dashboard.RefreshCallReturned | src/App.tsx:93-107 | success starts the poll; failure lowers the flag |
| App.Dashboard.PollReturned | src/App.tsx:95-103 | only a "not refreshing" answer stops the poll, lowers the flag and reloads articles (spinner on, error cleared) and statistics, sending no refresh request |

## Left out

- Network I/O: `fetch`, FastAPI routing, CORS, `BackgroundTasks` and uvicorn are outside the model. Transports and parsers are function parameters.
- Third-party parsing: feedparser, the newspaper download and parse, and `datetime` conversion of parsed dates are outside the model. Entries arrive with their date already rendered as text, and `now` is one reading of the clock shared by a whole refresh.
- The summarisation pipeline: the transformers model, the device choice and the `initialize_summarizer` singleton are outside the model. The model is an uninterpreted function that may fail.
- Timers: the 500 ms debounce and the 2000 ms poll interval are not modelled. Their firings are event methods, and a new search value replaces the pending timer.
- React scheduling: the order of effects beyond what the page's handlers imply, and the pairing of responses with requests, are not modelled. The response that arrives last wins.
- App.Dashboard.PollReturned: a rejected poll is modelled as no change. In the source it is an unhandled rejection, and the next tick polls again. The model also keeps at most one poll in flight and accepts an answer only while the poll runs; overlapping interval ticks, and a late answer arriving after the poll has stopped, are not modelled.
- Concurrency between the refresh task and the request handlers: handlers run one at a time. The flag is set only inside the task, so two quick POSTs can both start a refresh; the model does not capture that.
- SQLite: connections, commit and rollback, indices and DDL are outside the model. `LIKE '%q%'` is approximated as ASCII case-insensitive substring search, without wildcards inside `q`. SQLite leaves the order of ties under ORDER BY unspecified; the model fixes one: articles with equal dates keep table order, and domains with equal counts are listed by the position of their last row, the domain whose last row comes later first (the order `Tally` builds by scanning the rows backwards).
- Database.Database.constructor: models initialisation on a fresh database file. `CREATE TABLE IF NOT EXISTS` on an existing file keeps its rows; the model does not cover reopening a populated file.
- Database.Database.InsertArticle: `created_at` is the refresh's `now` parameter, the same for every row of one refresh, not SQLite's per-insert `CURRENT_TIMESTAMP`.
- Backend.ListResponse: SQLite binds integers as signed 64-bit values. `page` has no upper bound, so an offset `(page - 1) * page_size` above 2^63 - 1 makes the source fail with a server error, where the model answers with an empty page. This limit is not modelled.
- Database.Database.GetArticles, Database.Database.GetArticleCount: the statement text is built as in the source, but its evaluation is given by the specification functions rather than an SQL engine.
- Per-entry and per-feed exceptions in `fetch_rss_articles`, and the error printing everywhere, are not modelled. An exception inside `perform_refresh` is the `failure` position.
- The framework's 422 for a non-integer `page` or `page_size` is outside the model. Requests reach the model already parsed.
- URL encoding of query values is not modelled. Numbers are integers; JavaScript float semantics of `page` are not.
- Text.LowerChar: lower-casing covers the ASCII letters only. Python's and JavaScript's Unicode case mapping is not modelled.
- Text.IsSpace: `str.isspace` is a fixed table of code points.
- Rendering: JSX, ArticleCard, ArticleModal, the modal and sidebar open state, and the refresh button's label are outside the model.
- DomainChart.Render: the percentages and bar widths are floating point and not computed. Only the integer aggregates and the ratio bound are stated.
- Dictionaries passed between the refresher, enricher and summariser are values. In-place mutation and aliasing of the article dict are not observable in the model.
