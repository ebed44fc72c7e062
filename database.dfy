/**
 * The article store. The SQLite table `articles` is an in-memory sequence of
 * rows; the SQL text and bound parameters that the two list queries build are
 * modelled exactly, and what SQLite returns for them is given by functions over
 * the rows that read the same list of conditions the SQL text is made from.
 */
module Database {
  import opened Wrappers
  import opened Text
  import opened Types

  /** A value bound to a `?` placeholder. */
  datatype SqlValue = TextValue(text: string) | IntValue(n: int)

  /** The optional filters of `get_articles` and `get_article_count`. */
  datatype Filter = Filter(
    startDate: Option<string>,
    endDate: Option<string>,
    domains: Option<seq<string>>,
    searchQuery: Option<string>)

  /** One `AND ...` condition of the WHERE clause. */
  datatype Condition =
    | PublishedFrom(bound: string)
    | PublishedUntil(bound: string)
    | DomainIn(domains: seq<string>)
    | TitleOrSummaryLike(query: string)

  /** The `?` that stands for one bound parameter. */
  const PLACEHOLDER: string := "?"

  // The fixed text of the two statements, cut at their placeholders.
  const FROM_ARTICLES: string := "FROM articles WHERE 1=1"
  const SELECT_ARTICLES: string := "SELECT * " + FROM_ARTICLES
  const COUNT_ARTICLES: string := "SELECT COUNT(*) as count " + FROM_ARTICLES
  const AND_PUBLISHED_FROM: string := " AND published_date >= "
  const AND_PUBLISHED_UNTIL: string := " AND published_date <= "
  const AND_DOMAIN_IN: string := " AND domain IN ("
  const AND_TITLE_LIKE: string := " AND (title LIKE "
  const OR_SUMMARY_LIKE: string := " OR summary LIKE "
  const CLOSE: string := ")"
  const ORDER_LIMIT: string := " ORDER BY published_date DESC" + " LIMIT "
  const OFFSET: string := " OFFSET "

  const START_CONDITION: string := AND_PUBLISHED_FROM + PLACEHOLDER
  const END_CONDITION: string := AND_PUBLISHED_UNTIL + PLACEHOLDER
  const SEARCH_CONDITION: string := AND_TITLE_LIKE + PLACEHOLDER + OR_SUMMARY_LIKE + PLACEHOLDER + CLOSE
  const ORDER_AND_PAGE: string := ORDER_LIMIT + PLACEHOLDER + OFFSET + PLACEHOLDER

  /** Python truthiness of an optional string. */
  predicate Truthy(o: Option<string>) {
    o.Some? && o.value != ""
  }

  /** `domains and len(domains) > 0`. */
  predicate DomainsGiven(o: Option<seq<string>>) {
    o.Some? && |o.value| > 0
  }

  // The condition each filter contributes, if any.
  function StartPart(f: Filter): seq<Condition> {
    if Truthy(f.startDate) then [PublishedFrom(f.startDate.value)] else []
  }

  function EndPart(f: Filter): seq<Condition> {
    if Truthy(f.endDate) then [PublishedUntil(f.endDate.value)] else []
  }

  function DomainPart(f: Filter): seq<Condition> {
    if DomainsGiven(f.domains) then [DomainIn(f.domains.value)] else []
  }

  function SearchPart(f: Filter): seq<Condition> {
    if Truthy(f.searchQuery) then [TitleOrSummaryLike(f.searchQuery.value)] else []
  }

  /** The conditions a filter switches on, in the order the WHERE clause lists them. */
  function Conditions(f: Filter): seq<Condition> {
    StartPart(f) + EndPart(f) + DomainPart(f) + SearchPart(f)
  }

  /** `','.join('?' * n)`: n question marks separated by commas. */
  function InPlaceholders(n: nat): string {
    Join(seq(n, _ => PLACEHOLDER), ',')
  }

  function DomainValues(domains: seq<string>): seq<SqlValue> {
    seq(|domains|, i requires 0 <= i < |domains| => TextValue(domains[i]))
  }

  /** `f"%{search_query}%"`. */
  function LikePattern(query: string): string {
    "%" + query + "%"
  }

  function ConditionSql(c: Condition): string {
    match c
    case PublishedFrom(_) => START_CONDITION
    case PublishedUntil(_) => END_CONDITION
    case DomainIn(ds) => AND_DOMAIN_IN + InPlaceholders(|ds|) + CLOSE
    case TitleOrSummaryLike(_) => SEARCH_CONDITION
  }

  function ConditionParams(c: Condition): seq<SqlValue> {
    match c
    case PublishedFrom(b) => [TextValue(b)]
    case PublishedUntil(b) => [TextValue(b)]
    case DomainIn(ds) => DomainValues(ds)
    case TitleOrSummaryLike(q) => [TextValue(LikePattern(q)), TextValue(LikePattern(q))]
  }

  /** The text the conditions append after `WHERE 1=1`. */
  function WhereSql(cs: seq<Condition>): string
    decreases |cs|
  {
    if cs == [] then "" else WhereSql(cs[..|cs| - 1]) + ConditionSql(cs[|cs| - 1])
  }

  /** The parameters the conditions bind, in placeholder order. */
  function WhereParams(cs: seq<Condition>): seq<SqlValue>
    decreases |cs|
  {
    if cs == [] then [] else WhereParams(cs[..|cs| - 1]) + ConditionParams(cs[|cs| - 1])
  }

  lemma WhereAppend(cs: seq<Condition>, c: Condition)
    ensures WhereSql(cs + [c]) == WhereSql(cs) + ConditionSql(c)
    ensures WhereParams(cs + [c]) == WhereParams(cs) + ConditionParams(c)
  {
    assert (cs + [c])[..|cs + [c]| - 1] == cs;
  }

  // ---------------------------------------------------------------------------
  // Building the statements

  /** Appending one more condition's text and parameters extends the clause by that condition. */
  lemma Extend(head: string, cs: seq<Condition>, c: Condition)
    ensures head + WhereSql(cs) + ConditionSql(c) == head + WhereSql(cs + [c])
    ensures WhereParams(cs) + ConditionParams(c) == WhereParams(cs + [c])
  {
    WhereAppend(cs, c);
    ConcatAssoc(head, WhereSql(cs), ConditionSql(c));
  }

  /** `if start_date:` appends the lower date bound and its parameter. */
  method AddStartDate(head: string, f: Filter, query: string, params: seq<SqlValue>, ghost cs: seq<Condition>)
    returns (query': string, params': seq<SqlValue>)
    requires query == head + WhereSql(cs) && params == WhereParams(cs)
    ensures query' == head + WhereSql(cs + StartPart(f)) && params' == WhereParams(cs + StartPart(f))
  {
    if Truthy(f.startDate) {
      Extend(head, cs, PublishedFrom(f.startDate.value));
      query' := query + START_CONDITION;
      params' := params + [TextValue(f.startDate.value)];
    } else {
      query', params' := query, params;
      assert cs + StartPart(f) == cs;
    }
  }

  /** `if end_date:` appends the upper date bound and its parameter. */
  method AddEndDate(head: string, f: Filter, query: string, params: seq<SqlValue>, ghost cs: seq<Condition>)
    returns (query': string, params': seq<SqlValue>)
    requires query == head + WhereSql(cs) && params == WhereParams(cs)
    ensures query' == head + WhereSql(cs + EndPart(f)) && params' == WhereParams(cs + EndPart(f))
  {
    if Truthy(f.endDate) {
      Extend(head, cs, PublishedUntil(f.endDate.value));
      query' := query + END_CONDITION;
      params' := params + [TextValue(f.endDate.value)];
    } else {
      query', params' := query, params;
      assert cs + EndPart(f) == cs;
    }
  }

  /** `if domains and len(domains) > 0:` appends `IN` with one placeholder and one parameter per domain. */
  method AddDomains(head: string, f: Filter, query: string, params: seq<SqlValue>, ghost cs: seq<Condition>)
    returns (query': string, params': seq<SqlValue>)
    requires query == head + WhereSql(cs) && params == WhereParams(cs)
    ensures query' == head + WhereSql(cs + DomainPart(f)) && params' == WhereParams(cs + DomainPart(f))
  {
    if DomainsGiven(f.domains) {
      Extend(head, cs, DomainIn(f.domains.value));
      var placeholders := InPlaceholders(|f.domains.value|);
      var clause := AND_DOMAIN_IN + placeholders + CLOSE;
      query' := query + clause;
      params' := params + DomainValues(f.domains.value);
    } else {
      query', params' := query, params;
      assert cs + DomainPart(f) == cs;
    }
  }

  /** `if search_query:` appends the title-or-summary match and the pattern twice. */
  method AddSearch(head: string, f: Filter, query: string, params: seq<SqlValue>, ghost cs: seq<Condition>)
    returns (query': string, params': seq<SqlValue>)
    requires query == head + WhereSql(cs) && params == WhereParams(cs)
    ensures query' == head + WhereSql(cs + SearchPart(f)) && params' == WhereParams(cs + SearchPart(f))
  {
    if Truthy(f.searchQuery) {
      Extend(head, cs, TitleOrSummaryLike(f.searchQuery.value));
      query' := query + SEARCH_CONDITION;
      var searchTerm := LikePattern(f.searchQuery.value);
      params' := params + [TextValue(searchTerm), TextValue(searchTerm)];
    } else {
      query', params' := query, params;
      assert cs + SearchPart(f) == cs;
    }
  }

  /**
   * The filter part both statements share: after `head`, one `AND ...` per
   * active filter under successive `if`s, and its parameters in the same order.
   */
  method AppendFilters(head: string, f: Filter) returns (query: string, params: seq<SqlValue>)
    ensures query == head + WhereSql(Conditions(f))
    ensures params == WhereParams(Conditions(f))
  {
    ghost var cs: seq<Condition> := [];
    query, params := head, [];
    query, params := AddStartDate(head, f, query, params, cs);
    cs := cs + StartPart(f);
    query, params := AddEndDate(head, f, query, params, cs);
    cs := cs + EndPart(f);
    query, params := AddDomains(head, f, query, params, cs);
    cs := cs + DomainPart(f);
    query, params := AddSearch(head, f, query, params, cs);
    cs := cs + SearchPart(f);
    assert cs == Conditions(f);
  }

  /**
   * The statement `get_articles` executes: the filter conditions, then
   * ordering and paging; one bound parameter per `?`.
   */
  method BuildArticlesQuery(f: Filter, limit: int, offset: int) returns (query: string, params: seq<SqlValue>)
    ensures query == SELECT_ARTICLES + WhereSql(Conditions(f)) + ORDER_AND_PAGE
    ensures params == WhereParams(Conditions(f)) + [IntValue(limit), IntValue(offset)]
    ensures Occurrences(query, '?') == |params|
  {
    query, params := AppendFilters(SELECT_ARTICLES, f);
    query := query + ORDER_AND_PAGE;
    params := params + [IntValue(limit), IntValue(offset)];
    ArticlesQueryPlaceholders(f, limit, offset);
  }

  /** The statement `get_article_count` executes: the same conditions, no paging. */
  method BuildCountQuery(f: Filter) returns (query: string, params: seq<SqlValue>)
    ensures query == COUNT_ARTICLES + WhereSql(Conditions(f))
    ensures params == WhereParams(Conditions(f))
    ensures Occurrences(query, '?') == |params|
  {
    query, params := AppendFilters(COUNT_ARTICLES, f);
    CountQueryPlaceholders(f);
  }

  // ---------------------------------------------------------------------------
  // Placeholders and parameters

  lemma PlaceholderCount()
    ensures Occurrences(PLACEHOLDER, '?') == 1
  {
    OccurrencesSingle('?', '?');
  }

  /** `text + PLACEHOLDER` has one `?` more than `text`. */
  lemma AddPlaceholder(text: string)
    ensures Occurrences(text + PLACEHOLDER, '?') == Occurrences(text, '?') + 1
  {
    PlaceholderCount();
    OccurrencesConcat(text, PLACEHOLDER, '?');
  }

  lemma NoPlaceholder(text: string)
    requires '?' !in text
    ensures Occurrences(text, '?') == 0
  {
  }

  lemma SelectPlaceholders()
    ensures Occurrences(SELECT_ARTICLES, '?') == 0
  {
    assert '?' !in "SELECT * ";
    assert '?' !in FROM_ARTICLES;
    NoPlaceholder(SELECT_ARTICLES);
  }

  lemma CountPlaceholders()
    ensures Occurrences(COUNT_ARTICLES, '?') == 0
  {
    assert '?' !in "SELECT COUNT(*) as count ";
    assert '?' !in FROM_ARTICLES;
    NoPlaceholder(COUNT_ARTICLES);
  }

  lemma StartPlaceholders()
    ensures Occurrences(START_CONDITION, '?') == 1
  {
    NoPlaceholder(AND_PUBLISHED_FROM);
    AddPlaceholder(AND_PUBLISHED_FROM);
  }

  lemma EndPlaceholders()
    ensures Occurrences(END_CONDITION, '?') == 1
  {
    NoPlaceholder(AND_PUBLISHED_UNTIL);
    AddPlaceholder(AND_PUBLISHED_UNTIL);
  }

  /** `before + PLACEHOLDER + after` has one `?` more than its two sides together. */
  lemma AroundPlaceholder(before: string, after: string)
    ensures Occurrences(before + PLACEHOLDER + after, '?') == Occurrences(before, '?') + 1 + Occurrences(after, '?')
  {
    AddPlaceholder(before);
    OccurrencesConcat(before + PLACEHOLDER, after, '?');
  }

  lemma TitleLikeFixed()
    ensures Occurrences(AND_TITLE_LIKE, '?') == 0
  {
    NoPlaceholder(AND_TITLE_LIKE);
  }

  lemma SummaryLikeFixed()
    ensures Occurrences(OR_SUMMARY_LIKE, '?') == 0
  {
    NoPlaceholder(OR_SUMMARY_LIKE);
  }

  lemma FirstLikePlaceholders()
    ensures Occurrences(AND_TITLE_LIKE + PLACEHOLDER + OR_SUMMARY_LIKE, '?') == 1
  {
    TitleLikeFixed();
    SummaryLikeFixed();
    AroundPlaceholder(AND_TITLE_LIKE, OR_SUMMARY_LIKE);
  }

  lemma SearchPlaceholders()
    ensures Occurrences(SEARCH_CONDITION, '?') == 2
  {
    NoPlaceholder(CLOSE);
    FirstLikePlaceholders();
    AroundPlaceholder(AND_TITLE_LIKE + PLACEHOLDER + OR_SUMMARY_LIKE, CLOSE);
  }

  lemma PagePlaceholders()
    ensures Occurrences(ORDER_AND_PAGE, '?') == 2
  {
    var first := ORDER_LIMIT + PLACEHOLDER;
    assert '?' !in " ORDER BY published_date DESC";
    assert '?' !in " LIMIT ";
    NoPlaceholder(ORDER_LIMIT);
    NoPlaceholder(OFFSET);
    AddPlaceholder(ORDER_LIMIT);
    OccurrencesConcat(first, OFFSET, '?');
    AddPlaceholder(first + OFFSET);
  }

  lemma InPlaceholdersStep(n: nat)
    requires n > 1
    ensures InPlaceholders(n) == PLACEHOLDER + [','] + InPlaceholders(n - 1)
  {
    assert seq(n, _ => PLACEHOLDER)[1..] == seq(n - 1, _ => PLACEHOLDER);
  }

  lemma {:induction false} InPlaceholdersCount(n: nat)
    ensures Occurrences(InPlaceholders(n), '?') == n
    decreases n
  {
    if n == 1 {
      assert InPlaceholders(1) == PLACEHOLDER;
      PlaceholderCount();
    } else if n > 1 {
      InPlaceholdersCount(n - 1);
      InPlaceholdersStep(n);
      AddPlaceholder([]);
      assert [] + PLACEHOLDER == PLACEHOLDER;
      OccurrencesSingle('?', ',');
      OccurrencesConcat(PLACEHOLDER, [','], '?');
      OccurrencesConcat(PLACEHOLDER + [','], InPlaceholders(n - 1), '?');
    }
  }

  /** Each condition has exactly as many `?` as it binds parameters. */
  lemma ConditionPlaceholders(c: Condition)
    ensures Occurrences(ConditionSql(c), '?') == |ConditionParams(c)|
  {
    match c
    case PublishedFrom(_) => StartPlaceholders();
    case PublishedUntil(_) => EndPlaceholders();
    case DomainIn(ds) => DomainPlaceholders(|ds|);
    case TitleOrSummaryLike(_) => SearchPlaceholders();
  }

  /** Text without `?` around `middle` adds none. */
  lemma Enclosed(before: string, middle: string, after: string)
    requires Occurrences(before, '?') == 0 && Occurrences(after, '?') == 0
    ensures Occurrences(before + middle + after, '?') == Occurrences(middle, '?')
  {
    OccurrencesConcat(before, middle, '?');
    OccurrencesConcat(before + middle, after, '?');
  }

  lemma DomainInFixed()
    ensures Occurrences(AND_DOMAIN_IN, '?') == 0 && Occurrences(CLOSE, '?') == 0
  {
    NoPlaceholder(AND_DOMAIN_IN);
    NoPlaceholder(CLOSE);
  }

  lemma DomainPlaceholders(n: nat)
    ensures Occurrences(AND_DOMAIN_IN + InPlaceholders(n) + CLOSE, '?') == n
  {
    DomainInFixed();
    InPlaceholdersCount(n);
    Enclosed(AND_DOMAIN_IN, InPlaceholders(n), CLOSE);
  }

  lemma {:induction false} WherePlaceholders(cs: seq<Condition>)
    ensures Occurrences(WhereSql(cs), '?') == |WhereParams(cs)|
    decreases |cs|
  {
    if cs != [] {
      WherePlaceholders(cs[..|cs| - 1]);
      ConditionPlaceholders(cs[|cs| - 1]);
      OccurrencesConcat(WhereSql(cs[..|cs| - 1]), ConditionSql(cs[|cs| - 1]), '?');
    }
  }

  /** The listing statement has one `?` per bound parameter. */
  lemma ArticlesQueryPlaceholders(f: Filter, limit: int, offset: int)
    ensures Occurrences(SELECT_ARTICLES + WhereSql(Conditions(f)) + ORDER_AND_PAGE, '?')
         == |WhereParams(Conditions(f)) + [IntValue(limit), IntValue(offset)]|
  {
    SelectPlaceholders();
    PagePlaceholders();
    WherePlaceholders(Conditions(f));
    OccurrencesConcat(SELECT_ARTICLES, WhereSql(Conditions(f)), '?');
    OccurrencesConcat(SELECT_ARTICLES + WhereSql(Conditions(f)), ORDER_AND_PAGE, '?');
  }

  /** The counting statement has one `?` per bound parameter. */
  lemma CountQueryPlaceholders(f: Filter)
    ensures Occurrences(COUNT_ARTICLES + WhereSql(Conditions(f)), '?') == |WhereParams(Conditions(f))|
  {
    CountPlaceholders();
    WherePlaceholders(Conditions(f));
    OccurrencesConcat(COUNT_ARTICLES, WhereSql(Conditions(f)), '?');
  }

  /** The four optional parts of the clause, right-nested. */
  lemma ConditionParts(f: Filter)
    ensures Conditions(f) == StartPart(f) + (EndPart(f) + (DomainPart(f) + SearchPart(f)))
  {
    ConcatAssoc(StartPart(f), EndPart(f), DomainPart(f));
    ConcatAssoc(StartPart(f) + EndPart(f), DomainPart(f), SearchPart(f));
    ConcatAssoc(StartPart(f), EndPart(f), DomainPart(f) + SearchPart(f));
  }

  /**
   * A start (end) date adds its condition iff it is truthy; the domain
   * condition is there iff the list is given and non-empty; the search
   * condition iff the query is truthy; nothing else is added.
   */
  lemma ConditionsOfFilter(f: Filter)
    ensures PublishedFrom(f.startDate.GetOr("")) in Conditions(f) <==> Truthy(f.startDate)
    ensures PublishedUntil(f.endDate.GetOr("")) in Conditions(f) <==> Truthy(f.endDate)
    ensures DomainIn(f.domains.GetOr([])) in Conditions(f) <==> DomainsGiven(f.domains)
    ensures TitleOrSummaryLike(f.searchQuery.GetOr("")) in Conditions(f) <==> Truthy(f.searchQuery)
    ensures |Conditions(f)| == (if Truthy(f.startDate) then 1 else 0) + (if Truthy(f.endDate) then 1 else 0)
                              + (if DomainsGiven(f.domains) then 1 else 0) + (if Truthy(f.searchQuery) then 1 else 0)
  {
    ConditionParts(f);
    StartCondition(f);
    EndCondition(f);
    DomainCondition(f);
    SearchCondition(f);
  }

  lemma StartCondition(f: Filter)
    ensures PublishedFrom(f.startDate.GetOr("")) in Conditions(f) <==> Truthy(f.startDate)
  {
    ConditionParts(f);
    assert PublishedFrom(f.startDate.GetOr("")) !in EndPart(f) + (DomainPart(f) + SearchPart(f));
  }

  lemma EndCondition(f: Filter)
    ensures PublishedUntil(f.endDate.GetOr("")) in Conditions(f) <==> Truthy(f.endDate)
  {
    ConditionParts(f);
    assert PublishedUntil(f.endDate.GetOr("")) !in StartPart(f) + (DomainPart(f) + SearchPart(f));
  }

  lemma DomainCondition(f: Filter)
    ensures DomainIn(f.domains.GetOr([])) in Conditions(f) <==> DomainsGiven(f.domains)
  {
    ConditionParts(f);
    assert DomainIn(f.domains.GetOr([])) !in StartPart(f) + (EndPart(f) + SearchPart(f));
  }

  lemma SearchCondition(f: Filter)
    ensures TitleOrSummaryLike(f.searchQuery.GetOr("")) in Conditions(f) <==> Truthy(f.searchQuery)
  {
    ConditionParts(f);
    assert TitleOrSummaryLike(f.searchQuery.GetOr("")) !in StartPart(f) + (EndPart(f) + DomainPart(f));
  }

  /**
   * The domain condition binds one parameter per domain, in order; the search
   * condition binds two identical `%q%` parameters.
   */
  lemma ConditionParamsShape(ds: seq<string>, q: string)
    ensures |ConditionParams(DomainIn(ds))| == |ds|
    ensures forall i | 0 <= i < |ds| :: ConditionParams(DomainIn(ds))[i] == TextValue(ds[i])
    ensures ConditionParams(TitleOrSummaryLike(q)) == [TextValue(LikePattern(q)), TextValue(LikePattern(q))]
  {
  }

  // ---------------------------------------------------------------------------
  // What SQLite returns

  /** `LIKE '%q%'`: `q` occurs in `s`, ignoring the case of ASCII letters. */
  predicate LikeContains(s: string, q: string) {
    Contains(ToLower(s), ToLower(q))
  }

  /** A row satisfies one condition (dates compare as strings). */
  predicate Holds(c: Condition, row: Article) {
    match c
    case PublishedFrom(b) => StrLe(b, row.publishedDate)
    case PublishedUntil(b) => StrLe(row.publishedDate, b)
    case DomainIn(ds) => row.domain in ds
    case TitleOrSummaryLike(q) => LikeContains(row.title, q) || LikeContains(row.summary, q)
  }

  /** The WHERE clause holds for a row. */
  predicate Matches(row: Article, f: Filter) {
    forall c | c in Conditions(f) :: Holds(c, row)
  }

  /** The active filters in plain terms: every one of them holds. */
  lemma MatchesMeaning(row: Article, f: Filter)
    ensures Matches(row, f) <==>
      && (Truthy(f.startDate) ==> StrLe(f.startDate.value, row.publishedDate))
      && (Truthy(f.endDate) ==> StrLe(row.publishedDate, f.endDate.value))
      && (DomainsGiven(f.domains) ==> row.domain in f.domains.value)
      && (Truthy(f.searchQuery) ==>
            LikeContains(row.title, f.searchQuery.value) || LikeContains(row.summary, f.searchQuery.value))
  {
    if Truthy(f.startDate) {
      assert PublishedFrom(f.startDate.value) in Conditions(f);
    }
    if Truthy(f.endDate) {
      assert PublishedUntil(f.endDate.value) in Conditions(f);
    }
    if DomainsGiven(f.domains) {
      assert DomainIn(f.domains.value) in Conditions(f);
    }
    if Truthy(f.searchQuery) {
      assert TitleOrSummaryLike(f.searchQuery.value) in Conditions(f);
    }
  }

  /** The rows the WHERE clause keeps, in table order. */
  function MatchingRows(rows: seq<Article>, f: Filter): seq<Article>
    decreases |rows|
  {
    if rows == [] then []
    else (if Matches(rows[0], f) then [rows[0]] else []) + MatchingRows(rows[1..], f)
  }

  /** The WHERE clause keeps exactly the matching rows, each as often as it is in the table. */
  lemma {:induction false} MatchingRowsSpec(rows: seq<Article>, f: Filter)
    ensures forall r :: multiset(MatchingRows(rows, f))[r] == if Matches(r, f) then multiset(rows)[r] else 0
    ensures forall r | r in MatchingRows(rows, f) :: r in rows && Matches(r, f)
    ensures |MatchingRows(rows, f)| <= |rows|
    decreases |rows|
  {
    if rows != [] {
      MatchingRowsSpec(rows[1..], f);
      assert rows == [rows[0]] + rows[1..];
    }
  }

  /** `published_date` is non-increasing along the sequence. */
  ghost predicate NewestFirst(rows: seq<Article>) {
    forall i, j | 0 <= i < j < |rows| :: StrLe(rows[j].publishedDate, rows[i].publishedDate)
  }

  function InsertByDate(row: Article, sorted: seq<Article>): seq<Article>
    decreases |sorted|
  {
    if sorted == [] then [row]
    else if StrLe(sorted[0].publishedDate, row.publishedDate) then [row] + sorted
    else [sorted[0]] + InsertByDate(row, sorted[1..])
  }

  /** `ORDER BY published_date DESC`; rows with equal dates keep their table order. */
  function SortNewestFirst(rows: seq<Article>): seq<Article>
    decreases |rows|
  {
    if rows == [] then [] else InsertByDate(rows[0], SortNewestFirst(rows[1..]))
  }

  /** Inserting a row adds exactly that row. */
  lemma {:induction false} InsertByDatePerm(row: Article, sorted: seq<Article>)
    ensures multiset(InsertByDate(row, sorted)) == multiset(sorted) + multiset{row}
    decreases |sorted|
  {
    if sorted != [] && !StrLe(sorted[0].publishedDate, row.publishedDate) {
      InsertByDatePerm(row, sorted[1..]);
      SplitHead(sorted);
    }
  }

  /** A row at least as new as every row of a newest-first sequence can go in front of it. */
  lemma PrependNewest(x: Article, rest: seq<Article>)
    requires NewestFirst(rest)
    requires forall y | y in rest :: StrLe(y.publishedDate, x.publishedDate)
    ensures NewestFirst([x] + rest)
  {
    var r := [x] + rest;
    forall i, j | 0 <= i < j < |r|
      ensures StrLe(r[j].publishedDate, r[i].publishedDate)
    {
      assert r[j] == rest[j - 1];
      if i > 0 {
        assert r[i] == rest[i - 1];
      }
    }
  }

  /** Inserting a row into a newest-first sequence keeps it newest first. */
  lemma {:induction false} InsertByDateOrdered(row: Article, sorted: seq<Article>)
    requires NewestFirst(sorted)
    ensures NewestFirst(InsertByDate(row, sorted))
    decreases |sorted|
  {
    if sorted == [] {
    } else if StrLe(sorted[0].publishedDate, row.publishedDate) {
      forall y | y in sorted
        ensures StrLe(y.publishedDate, row.publishedDate)
      {
        var k :| 0 <= k < |sorted| && sorted[k] == y;
        if k > 0 {
          StrLeTransitive(y.publishedDate, sorted[0].publishedDate, row.publishedDate);
        }
      }
      PrependNewest(row, sorted);
    } else {
      StrLeTotal(sorted[0].publishedDate, row.publishedDate);
      var tail := sorted[1..];
      InsertByDateOrdered(row, tail);
      InsertByDatePerm(row, tail);
      var rest := InsertByDate(row, tail);
      forall y | y in rest
        ensures StrLe(y.publishedDate, sorted[0].publishedDate)
      {
        assert y in multiset(rest);
        if y != row {
          assert y in multiset(tail);
          var k :| 0 <= k < |tail| && tail[k] == y;
          assert sorted[k + 1] == y;
        }
      }
      PrependNewest(sorted[0], rest);
    }
  }

  /** The ordering keeps every row exactly once and puts the newest first. */
  lemma {:induction false} SortNewestFirstSpec(rows: seq<Article>)
    ensures multiset(SortNewestFirst(rows)) == multiset(rows)
    ensures NewestFirst(SortNewestFirst(rows))
    decreases |rows|
  {
    if rows != [] {
      SortNewestFirstSpec(rows[1..]);
      InsertByDatePerm(rows[0], SortNewestFirst(rows[1..]));
      InsertByDateOrdered(rows[0], SortNewestFirst(rows[1..]));
      SplitHead(rows);
    }
  }

  /** `SELECT * ... WHERE ... ORDER BY published_date DESC LIMIT limit OFFSET offset`. */
  function SelectPage(rows: seq<Article>, f: Filter, limit: nat, offset: nat): seq<Article> {
    Take(Drop(SortNewestFirst(MatchingRows(rows, f)), offset), limit)
  }

  /** `SELECT COUNT(*) ... WHERE ...`. */
  function CountMatching(rows: seq<Article>, f: Filter): nat {
    |MatchingRows(rows, f)|
  }

  /** The matching rows newest first: as many as the count, all of them matching rows of the table. */
  lemma SortedMatching(rows: seq<Article>, f: Filter)
    ensures var sorted := SortNewestFirst(MatchingRows(rows, f));
      && |sorted| == CountMatching(rows, f)
      && NewestFirst(sorted)
      && forall r | r in sorted :: r in rows && Matches(r, f)
  {
    var matching := MatchingRows(rows, f);
    var sorted := SortNewestFirst(matching);
    SortNewestFirstSpec(matching);
    MatchingRowsSpec(rows, f);
    assert |sorted| == |multiset(sorted)| == |matching|;
    forall r | r in sorted
      ensures r in rows && Matches(r, f)
    {
      assert r in multiset(sorted);
      assert r in multiset(matching);
    }
  }

  /** `LIMIT limit OFFSET offset` over a newest-first sequence: a newest-first window of it. */
  lemma PageWindow(sorted: seq<Article>, limit: nat, offset: nat)
    requires NewestFirst(sorted)
    ensures var page := Take(Drop(sorted, offset), limit);
      && |page| == (if offset >= |sorted| then 0 else if |sorted| - offset < limit then |sorted| - offset else limit)
      && (forall k | 0 <= k < |page| :: page[k] == sorted[offset + k])
      && (forall r | r in page :: r in sorted)
      && NewestFirst(page)
  {
    var page := Take(Drop(sorted, offset), limit);
    forall r | r in page
      ensures r in sorted
    {
      var k :| 0 <= k < |page| && page[k] == r;
      assert sorted[offset + k] == r;
    }
    forall i, j | 0 <= i < j < |page|
      ensures StrLe(page[j].publishedDate, page[i].publishedDate)
    {
      assert page[i] == sorted[offset + i] && page[j] == sorted[offset + j];
    }
  }

  /**
   * A page holds at most `limit` rows: the matching rows newest first, after
   * skipping `offset` of them; its size is what is left of the count.
   */
  lemma SelectPageSpec(rows: seq<Article>, f: Filter, limit: nat, offset: nat)
    ensures var page := SelectPage(rows, f, limit, offset);
      && |page| <= limit
      && |page| == (if offset >= CountMatching(rows, f) then 0
                    else if CountMatching(rows, f) - offset < limit then CountMatching(rows, f) - offset
                    else limit)
      && (forall r | r in page :: r in rows && Matches(r, f))
      && NewestFirst(page)
      && (forall k | 0 <= k < |page| :: page[k] == SortNewestFirst(MatchingRows(rows, f))[offset + k])
  {
    SortedMatching(rows, f);
    PageWindow(SortNewestFirst(MatchingRows(rows, f)), limit, offset);
  }

  // ---------------------------------------------------------------------------
  // Per-domain statistics

  /** The number of rows in domain `d`. */
  function CountDomain(rows: seq<Article>, d: string): nat
    decreases |rows|
  {
    if rows == [] then 0 else (if rows[0].domain == d then 1 else 0) + CountDomain(rows[1..], d)
  }

  /** The counts of the entries for domain `d` added up (0 when there is none). */
  function StatCount(stats: seq<DomainStats>, d: string): int
    decreases |stats|
  {
    if stats == [] then 0 else (if stats[0].domain == d then stats[0].count else 0) + StatCount(stats[1..], d)
  }

  /** All counts added up. */
  function StatsTotal(stats: seq<DomainStats>): int
    decreases |stats|
  {
    if stats == [] then 0 else stats[0].count + StatsTotal(stats[1..])
  }

  /** Some entry is for domain `d`. */
  predicate HasDomain(stats: seq<DomainStats>, d: string)
    decreases |stats|
  {
    stats != [] && (stats[0].domain == d || HasDomain(stats[1..], d))
  }

  /** No domain has two entries. */
  predicate DistinctDomains(stats: seq<DomainStats>)
    decreases |stats|
  {
    stats == [] || (!HasDomain(stats[1..], stats[0].domain) && DistinctDomains(stats[1..]))
  }

  ghost predicate CountsDescending(stats: seq<DomainStats>) {
    forall i, j | 0 <= i < j < |stats| :: stats[i].count >= stats[j].count
  }

  /** One more row of domain `d` in the running `GROUP BY domain` tally. */
  function AddToTally(stats: seq<DomainStats>, d: string): seq<DomainStats>
    decreases |stats|
  {
    if stats == [] then [DomainStats(d, 1)]
    else if stats[0].domain == d then [DomainStats(d, stats[0].count + 1)] + stats[1..]
    else [stats[0]] + AddToTally(stats[1..], d)
  }

  /** `SELECT domain, COUNT(*) ... GROUP BY domain` before ordering. */
  function Tally(rows: seq<Article>): seq<DomainStats>
    decreases |rows|
  {
    if rows == [] then [] else AddToTally(Tally(rows[1..]), rows[0].domain)
  }

  function InsertByCount(e: DomainStats, sorted: seq<DomainStats>): seq<DomainStats>
    decreases |sorted|
  {
    if sorted == [] || sorted[0].count <= e.count then [e] + sorted
    else [sorted[0]] + InsertByCount(e, sorted[1..])
  }

  /** `ORDER BY count DESC` (ties in tally order). */
  function SortByCountDesc(stats: seq<DomainStats>): seq<DomainStats>
    decreases |stats|
  {
    if stats == [] then [] else InsertByCount(stats[0], SortByCountDesc(stats[1..]))
  }

  /** The result of `get_domain_statistics`. */
  function DomainStatistics(rows: seq<Article>): seq<DomainStats> {
    SortByCountDesc(Tally(rows))
  }

  lemma {:induction false} HasDomainIndex(stats: seq<DomainStats>, d: string)
    ensures HasDomain(stats, d) <==> exists i | 0 <= i < |stats| :: stats[i].domain == d
    decreases |stats|
  {
    if stats != [] {
      HasDomainIndex(stats[1..], d);
      if HasDomain(stats[1..], d) {
        var i :| 0 <= i < |stats[1..]| && stats[1..][i].domain == d;
        assert stats[i + 1].domain == d;
      }
      if exists i | 0 <= i < |stats| :: stats[i].domain == d {
        var i :| 0 <= i < |stats| && stats[i].domain == d;
        if i > 0 {
          assert stats[1..][i - 1].domain == d;
        }
      }
    }
  }

  lemma {:induction false} DistinctDomainsPairwise(stats: seq<DomainStats>)
    requires DistinctDomains(stats)
    ensures forall i, j | 0 <= i < j < |stats| :: stats[i].domain != stats[j].domain
    decreases |stats|
  {
    if stats != [] {
      DistinctDomainsPairwise(stats[1..]);
      HasDomainIndex(stats[1..], stats[0].domain);
      forall i, j | 0 <= i < j < |stats|
        ensures stats[i].domain != stats[j].domain
      {
        assert stats[j] == stats[1..][j - 1];
        if i > 0 {
          assert stats[i] == stats[1..][i - 1];
        }
      }
    }
  }

  lemma {:induction false} AddToTallySpec(stats: seq<DomainStats>, d: string)
    requires DistinctDomains(stats)
    ensures DistinctDomains(AddToTally(stats, d))
    ensures forall x :: StatCount(AddToTally(stats, d), x) == StatCount(stats, x) + (if x == d then 1 else 0)
    ensures forall x :: HasDomain(AddToTally(stats, d), x) <==> HasDomain(stats, x) || x == d
    ensures StatsTotal(AddToTally(stats, d)) == StatsTotal(stats) + 1
    decreases |stats|
  {
    var r := AddToTally(stats, d);
    if stats == [] {
      assert r[1..] == [];
    } else if stats[0].domain == d {
      assert r[1..] == stats[1..];
    } else {
      AddToTallySpec(stats[1..], d);
      assert r[1..] == AddToTally(stats[1..], d);
    }
  }

  lemma {:induction false} CountDomainTail(rows: seq<Article>, x: string)
    requires rows != []
    ensures CountDomain(rows, x) > 0 <==> rows[0].domain == x || CountDomain(rows[1..], x) > 0
  {
  }

  /**
   * The tally has one entry per distinct domain of the table, whose count is the
   * number of rows in that domain; the counts add up to the number of rows.
   */
  lemma {:induction false} TallySpec(rows: seq<Article>)
    ensures DistinctDomains(Tally(rows))
    ensures forall x :: StatCount(Tally(rows), x) == CountDomain(rows, x)
    ensures forall x :: HasDomain(Tally(rows), x) <==> CountDomain(rows, x) > 0
    ensures StatsTotal(Tally(rows)) == |rows|
    decreases |rows|
  {
    if rows != [] {
      TallySpec(rows[1..]);
      AddToTallySpec(Tally(rows[1..]), rows[0].domain);
      forall x
        ensures HasDomain(Tally(rows), x) <==> CountDomain(rows, x) > 0
      {
        CountDomainTail(rows, x);
      }
    }
  }

  /** Inserting an entry adds exactly that entry: to the multiset, the domains, the sums. */
  lemma {:induction false} InsertByCountSpec(e: DomainStats, sorted: seq<DomainStats>)
    ensures multiset(InsertByCount(e, sorted)) == multiset(sorted) + multiset{e}
    ensures forall y | y in InsertByCount(e, sorted) :: y == e || y in sorted
    ensures forall x :: HasDomain(InsertByCount(e, sorted), x) <==> HasDomain(sorted, x) || x == e.domain
    ensures forall x :: StatCount(InsertByCount(e, sorted), x) == StatCount(sorted, x) + (if x == e.domain then e.count else 0)
    ensures StatsTotal(InsertByCount(e, sorted)) == StatsTotal(sorted) + e.count
    ensures DistinctDomains(sorted) && !HasDomain(sorted, e.domain) ==> DistinctDomains(InsertByCount(e, sorted))
    decreases |sorted|
  {
    var r := InsertByCount(e, sorted);
    if sorted == [] || sorted[0].count <= e.count {
      assert r[1..] == sorted;
    } else {
      InsertByCountSpec(e, sorted[1..]);
      assert r[1..] == InsertByCount(e, sorted[1..]);
      SplitHead(sorted);
    }
  }

  /** An entry counting at least as much as every entry of a descending sequence can go in front of it. */
  lemma PrependDescending(x: DomainStats, rest: seq<DomainStats>)
    requires CountsDescending(rest)
    requires forall y | y in rest :: y.count <= x.count
    ensures CountsDescending([x] + rest)
  {
    var r := [x] + rest;
    forall i, j | 0 <= i < j < |r|
      ensures r[i].count >= r[j].count
    {
      assert r[j] == rest[j - 1];
      if i > 0 {
        assert r[i] == rest[i - 1];
      }
    }
  }

  lemma {:induction false} InsertByCountDescending(e: DomainStats, sorted: seq<DomainStats>)
    requires CountsDescending(sorted)
    ensures CountsDescending(InsertByCount(e, sorted))
    decreases |sorted|
  {
    if sorted == [] {
    } else if sorted[0].count <= e.count {
      forall y | y in sorted
        ensures y.count <= e.count
      {
        var k :| 0 <= k < |sorted| && sorted[k] == y;
      }
      PrependDescending(e, sorted);
    } else {
      var tail := sorted[1..];
      InsertByCountDescending(e, tail);
      InsertByCountSpec(e, tail);
      var rest := InsertByCount(e, tail);
      forall y | y in rest
        ensures y.count <= sorted[0].count
      {
        if y != e {
          var k :| 0 <= k < |tail| && tail[k] == y;
          assert sorted[k + 1] == y;
        }
      }
      PrependDescending(sorted[0], rest);
    }
  }

  /**
   * `ORDER BY count DESC` reorders without adding or losing entries: the result
   * is a permutation with the same domains and sums, sorted by count.
   */
  lemma {:induction false} SortByCountDescSpec(stats: seq<DomainStats>)
    ensures multiset(SortByCountDesc(stats)) == multiset(stats)
    ensures CountsDescending(SortByCountDesc(stats))
    ensures forall x :: HasDomain(SortByCountDesc(stats), x) <==> HasDomain(stats, x)
    ensures forall x :: StatCount(SortByCountDesc(stats), x) == StatCount(stats, x)
    ensures StatsTotal(SortByCountDesc(stats)) == StatsTotal(stats)
    ensures DistinctDomains(stats) ==> DistinctDomains(SortByCountDesc(stats))
    decreases |stats|
  {
    if stats != [] {
      var rest := SortByCountDesc(stats[1..]);
      SortByCountDescSpec(stats[1..]);
      InsertByCountSpec(stats[0], rest);
      InsertByCountDescending(stats[0], rest);
      SplitHead(stats);
    }
  }

  /** With distinct domains, the entry for a domain carries that domain's whole count. */
  lemma {:induction false} DistinctEntryCount(stats: seq<DomainStats>, i: nat)
    requires DistinctDomains(stats) && i < |stats|
    ensures StatCount(stats, stats[i].domain) == stats[i].count
    ensures HasDomain(stats, stats[i].domain)
    decreases |stats|
  {
    if i > 0 {
      DistinctEntryCount(stats[1..], i - 1);
      assert stats[1..][i - 1] == stats[i];
      if stats[0].domain == stats[i].domain {
        assert false;
      }
    } else {
      AbsentDomainCount(stats[1..], stats[0].domain);
    }
  }

  lemma {:induction false} AbsentDomainCount(stats: seq<DomainStats>, d: string)
    requires !HasDomain(stats, d)
    ensures StatCount(stats, d) == 0
    decreases |stats|
  {
    if stats != [] {
      AbsentDomainCount(stats[1..], d);
    }
  }

  /**
   * `get_domain_statistics`: one entry per distinct domain in the table with
   * its row count (at least 1), counts in non-increasing order, adding up to
   * the number of rows.
   */
  lemma DomainStatisticsSpec(rows: seq<Article>)
    ensures var stats := DomainStatistics(rows);
      && (forall i, j | 0 <= i < j < |stats| :: stats[i].domain != stats[j].domain)
      && (forall i | 0 <= i < |stats| :: stats[i].count == CountDomain(rows, stats[i].domain) >= 1)
      && (forall x :: (exists i | 0 <= i < |stats| :: stats[i].domain == x) <==> CountDomain(rows, x) > 0)
      && CountsDescending(stats)
      && StatsTotal(stats) == |rows|
  {
    var stats := DomainStatistics(rows);
    TallySpec(rows);
    SortByCountDescSpec(Tally(rows));
    DistinctDomainsPairwise(stats);
    forall i | 0 <= i < |stats|
      ensures stats[i].count == CountDomain(rows, stats[i].domain) >= 1
    {
      DistinctEntryCount(stats, i);
    }
    forall x
      ensures (exists i | 0 <= i < |stats| :: stats[i].domain == x) <==> CountDomain(rows, x) > 0
    {
      HasDomainIndex(stats, x);
    }
  }

  // ---------------------------------------------------------------------------
  // The table

  /** `link` is UNIQUE: no two rows share a link. */
  predicate UniqueLinks(rows: seq<Article>) {
    forall i, j | 0 <= i < j < |rows| :: rows[i].link != rows[j].link
  }

  /** Some row has this link. */
  predicate LinkStored(rows: seq<Article>, link: string) {
    exists i | 0 <= i < |rows| :: rows[i].link == link
  }

  /** The row `INSERT INTO articles (...) VALUES (...)` adds; `created_at` is the clock's value. */
  function StoredRow(a: FeedArticle, id: int, createdAt: string): Article {
    Article(id, a.title, a.link, a.domain, a.publishedDate, a.summary, a.fullText, a.source, createdAt)
  }

  class Database {
    var rows: seq<Article>
    /** The next AUTOINCREMENT key. */
    var nextId: int

    ghost predicate Valid()
      reads this
    {
      && nextId >= 1
      && UniqueLinks(rows)
      && (forall i | 0 <= i < |rows| :: 1 <= rows[i].id < nextId)
      && (forall i, j | 0 <= i < j < |rows| :: rows[i].id < rows[j].id)
    }

    /** `init_database()` on a fresh file: an empty table. */
    constructor ()
      ensures Valid() && rows == [] && nextId == 1
    {
      rows := [];
      nextId := 1;
    }

    /** `article_exists(link)`: true iff some row has that link. */
    predicate ArticleExists(link: string)
      reads this
      ensures ArticleExists(link) <==> exists i | 0 <= i < |rows| :: rows[i].link == link
    {
      LinkStored(rows, link)
    }

    /**
     * `insert_article(article)`: a new link is stored under the next key, which
     * is returned; an existing link violates UNIQUE, so nothing changes and the
     * result is None.
     */
    method InsertArticle(a: FeedArticle, now: string) returns (id: Option<int>)
      requires Valid()
      modifies this
      ensures Valid()
      ensures old(LinkStored(rows, a.link)) ==> id == None && rows == old(rows) && nextId == old(nextId)
      ensures !old(LinkStored(rows, a.link)) ==>
        && id == Some(old(nextId))
        && rows == old(rows) + [StoredRow(a, old(nextId), now)]
        && nextId == old(nextId) + 1
      ensures LinkStored(rows, a.link)
    {
      if LinkStored(rows, a.link) {
        id := None;
      } else {
        rows := rows + [StoredRow(a, nextId, now)];
        id := Some(nextId);
        nextId := nextId + 1;
        assert rows[|rows| - 1].link == a.link;
      }
    }

    /** `get_articles(...)`: one page of the matching rows, newest first. */
    method GetArticles(f: Filter, limit: nat, offset: nat) returns (result: seq<Article>)
      ensures result == SelectPage(rows, f, limit, offset)
      ensures |result| <= limit
      ensures forall r | r in result :: r in rows && Matches(r, f)
    {
      var query, params := BuildArticlesQuery(f, limit, offset);
      // SQLite's evaluation of `query` with `params`
      result := SelectPage(rows, f, limit, offset);
      SelectPageSpec(rows, f, limit, offset);
    }

    /** `get_article_count(...)`: the number of matching rows. */
    method GetArticleCount(f: Filter) returns (count: nat)
      ensures count == CountMatching(rows, f)
      ensures count <= |rows|
    {
      var query, params := BuildCountQuery(f);
      // SQLite's evaluation of `query` with `params`
      count := CountMatching(rows, f);
      MatchingRowsSpec(rows, f);
    }

    /** `get_domain_statistics()`. */
    method GetDomainStatistics() returns (stats: seq<DomainStats>)
      ensures stats == DomainStatistics(rows)
      ensures StatsTotal(stats) == |rows|
      ensures CountsDescending(stats)
    {
      stats := DomainStatistics(rows);
      DomainStatisticsSpec(rows);
    }
  }
}
