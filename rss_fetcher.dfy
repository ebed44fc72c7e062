/**
 * The feed reader: keyword classification of an article into a science
 * domain, HTML tag removal, and the transformation of parsed feed entries
 * into article records. Downloading and parsing feeds and pages are
 * parameters.
 */
module RssFetcher {
  import opened Wrappers
  import opened Text
  import opened Types

  /** The feeds, by source name, in the order they are read. */
  const RSS_FEEDS: seq<(string, string)> := [
    ("ScienceDaily", "https://www.sciencedaily.com/rss/all.xml"),
    ("Phys.org", "https://phys.org/rss-feed/"),
    ("NASA", "https://www.nasa.gov/rss/dyn/breaking_news.rss"),
    ("Nature News", "https://www.nature.com/nature.rss"),
    ("Scientific American", "https://www.scientificamerican.com/feed/")
  ]

  /** Each domain's keywords, in the order the domains are scored. */
  const DOMAIN_KEYWORDS: seq<(string, seq<string>)> := [
    ("Physics", ["physics", "quantum", "particle", "energy", "mechanics", "relativity"]),
    ("Biology", ["biology", "cell", "gene", "evolution", "organism", "ecology", "molecular"]),
    ("Astronomy", ["space", "astronomy", "planet", "star", "galaxy", "universe", "cosmic", "telescope", "nasa"]),
    ("AI", ["artificial intelligence", "machine learning", "neural network", "deep learning", "AI", "algorithm"]),
    ("Medicine", ["medicine", "health", "disease", "treatment", "clinical", "patient", "drug", "therapy"]),
    ("Chemistry", ["chemistry", "chemical", "molecule", "compound", "reaction", "catalyst"]),
    ("Earth Science", ["climate", "geology", "ocean", "atmosphere", "earthquake", "weather", "environmental"]),
    ("Technology", ["technology", "computer", "software", "engineering", "innovation", "device"]),
    ("Neuroscience", ["brain", "neuroscience", "cognitive", "neuron", "consciousness", "psychology"])
  ]

  /** The domain of an article no keyword matches. */
  const GENERAL_SCIENCE: string := "General Science"

  const NO_TITLE: string := "No Title"
  const SUMMARY_LIMIT: nat := 500
  const MAX_ARTICLES_PER_FEED: nat := 10

  // ---------------------------------------------------------------------------
  // Domain classification

  /** `sum(1 for keyword in keywords if keyword.lower() in text)`. */
  function KeywordScore(keywords: seq<string>, text: string): (score: nat)
    ensures score <= |keywords|
    ensures score == 0 <==> forall k | 0 <= k < |keywords| :: !Contains(text, ToLower(keywords[k]))
    decreases |keywords|
  {
    if keywords == [] then 0
    else
      var rest := KeywordScore(keywords[1..], text);
      assert forall k | 1 <= k < |keywords| :: keywords[k] == keywords[1..][k - 1];
      (if Contains(text, ToLower(keywords[0])) then 1 else 0) + rest
  }

  /** The keywords of a list that occur in the text. */
  function Matched(keywords: seq<string>, text: string): set<string> {
    set k | k in keywords && Contains(text, ToLower(k))
  }

  /** The matched set of a non-empty list: its head when that occurs, and the matches of the rest. */
  lemma MatchedCons(keywords: seq<string>, text: string)
    requires keywords != []
    ensures Matched(keywords, text)
         == (if Contains(text, ToLower(keywords[0])) then {keywords[0]} else {}) + Matched(keywords[1..], text)
  {
    assert keywords == [keywords[0]] + keywords[1..];
  }

  /** With no keyword listed twice, the score is the number of distinct keywords that occur. */
  lemma {:induction false} KeywordScoreCounts(keywords: seq<string>, text: string)
    requires forall i, j | 0 <= i < j < |keywords| :: keywords[i] != keywords[j]
    ensures KeywordScore(keywords, text) == |Matched(keywords, text)|
    decreases |keywords|
  {
    if keywords != [] {
      var rest := keywords[1..];
      KeywordScoreCounts(rest, text);
      assert keywords[0] !in rest by {
        forall j | 0 <= j < |rest|
          ensures rest[j] != keywords[0]
        {
          assert rest[j] == keywords[j + 1];
        }
      }
      MatchedCons(keywords, text);
      assert keywords[0] !in Matched(rest, text);
    }
  }

  /** Every domain's score for `text`, in table order. */
  function Scores(table: seq<(string, seq<string>)>, text: string): (scores: seq<nat>)
    ensures |scores| == |table|
    ensures forall i | 0 <= i < |table| :: scores[i] == KeywordScore(table[i].1, text)
  {
    seq(|table|, i requires 0 <= i < |table| => KeywordScore(table[i].1, text))
  }

  /** Index `i` holds a largest score and every earlier score is strictly smaller. */
  predicate IsFirstMax(scores: seq<nat>, i: int) {
    && 0 <= i < |scores|
    && (forall j | 0 <= j < |scores| :: scores[j] <= scores[i])
    && (forall j | 0 <= j < i :: scores[j] < scores[i])
  }

  /** Python's `max`: scanning left to right, a later item replaces the best only when strictly larger. */
  function FirstMaxIndex(scores: seq<nat>): (i: nat)
    requires |scores| > 0
    ensures IsFirstMax(scores, i)
    decreases |scores|
  {
    if |scores| == 1 then 0
    else
      var best := FirstMaxIndex(scores[..|scores| - 1]);
      if scores[|scores| - 1] > scores[best] then |scores| - 1 else best
  }

  /** At most one index is a first maximum. */
  lemma FirstMaxUnique(scores: seq<nat>, i: int, j: int)
    requires IsFirstMax(scores, i) && IsFirstMax(scores, j)
    ensures i == j
  {
    assert scores[i] <= scores[j] && scores[j] <= scores[i];
  }

  /**
   * `detect_domain` on the lower-cased text: "General Science" when no domain
   * scores, otherwise the earliest domain with the largest score.
   */
  function Classify(table: seq<(string, seq<string>)>, text: string): string {
    var scores := Scores(table, text);
    if forall i | 0 <= i < |scores| :: scores[i] == 0 then GENERAL_SCIENCE
    else table[FirstMaxIndex(scores)].0
  }

  /** The text `detect_domain` scores: title and summary, lower-cased. */
  function DetectionText(title: string, summary: string): string {
    ToLower(title + " " + summary)
  }

  /**
   * `detect_domain(title, summary)`: the domains with a positive score are
   * collected in table order, then the first one with the largest score wins.
   */
  method DetectDomain(title: string, summary: string) returns (domain: string)
    ensures domain == Classify(DOMAIN_KEYWORDS, DetectionText(title, summary))
  {
    domain := DetectDomainWith(DOMAIN_KEYWORDS, title, summary);
  }

  /**
   * `domainScores` lists, in table order and with their `origin` index, exactly
   * the domains among the first `i` whose score is positive.
   */
  ghost predicate CollectedScores(table: seq<(string, seq<string>)>, scores: seq<nat>, i: int,
                                  domainScores: seq<(string, nat)>, origin: seq<nat>)
  {
    && |scores| == |table|
    && 0 <= i <= |table|
    && |origin| == |domainScores|
    && (forall k | 0 <= k < |origin| ::
          origin[k] < i && domainScores[k] == (table[origin[k]].0, scores[origin[k]]) && scores[origin[k]] > 0)
    && (forall k, l | 0 <= k < l < |origin| :: origin[k] < origin[l])
    && (forall j | 0 <= j < i && scores[j] > 0 :: j in origin)
  }

  /** The first largest of the collected scores sits at the first largest score of the table. */
  lemma CollectedFirstMax(table: seq<(string, seq<string>)>, scores: seq<nat>,
                          domainScores: seq<(string, nat)>, origin: seq<nat>, best: nat)
    requires CollectedScores(table, scores, |table|, domainScores, origin)
    requires best < |domainScores|
    requires forall l | 0 <= l < |domainScores| :: domainScores[l].1 <= domainScores[best].1
    requires forall l | 0 <= l < best :: domainScores[l].1 < domainScores[best].1
    ensures IsFirstMax(scores, origin[best])
  {
    var m := origin[best];
    forall j | 0 <= j < |scores|
      ensures scores[j] <= scores[m] && (j < m ==> scores[j] < scores[m])
    {
      if scores[j] > 0 {
        var l :| 0 <= l < |origin| && origin[l] == j;
        assert domainScores[l].1 == scores[j];
        if j < m {
          assert l < best;
        }
      }
    }
  }

  /** The first loop of `detect_domain`: the positive scores, in table order. */
  method CollectScores(table: seq<(string, seq<string>)>, text: string)
    returns (domainScores: seq<(string, nat)>, ghost origin: seq<nat>)
    ensures CollectedScores(table, Scores(table, text), |table|, domainScores, origin)
  {
    ghost var scores := Scores(table, text);
    domainScores := [];
    origin := [];
    var i := 0;
    while i < |table|
      invariant CollectedScores(table, scores, i, domainScores, origin)
    {
      var score := KeywordScore(table[i].1, text);
      if score > 0 {
        domainScores := domainScores + [(table[i].0, score)];
        origin := origin + [i];
      }
      i := i + 1;
    }
  }

  /** `max(domain_scores.items(), key=lambda x: x[1])`: the first entry with the largest score. */
  method FirstLargest(domainScores: seq<(string, nat)>) returns (best: nat)
    requires |domainScores| > 0
    ensures best < |domainScores|
    ensures forall l | 0 <= l < |domainScores| :: domainScores[l].1 <= domainScores[best].1
    ensures forall l | 0 <= l < best :: domainScores[l].1 < domainScores[best].1
  {
    best := 0;
    var k := 1;
    while k < |domainScores|
      invariant 1 <= k <= |domainScores| && best < k
      invariant forall l | 0 <= l < k :: domainScores[l].1 <= domainScores[best].1
      invariant forall l | 0 <= l < best :: domainScores[l].1 < domainScores[best].1
    {
      if domainScores[k].1 > domainScores[best].1 {
        best := k;
      }
      k := k + 1;
    }
  }

  /** The same rule over any keyword table. */
  method DetectDomainWith(table: seq<(string, seq<string>)>, title: string, summary: string) returns (domain: string)
    ensures domain == Classify(table, DetectionText(title, summary))
  {
    var text := ToLower(title + " " + summary);
    var domainScores, origin := CollectScores(table, text);
    ghost var scores := Scores(table, text);
    if |domainScores| > 0 {
      var best := FirstLargest(domainScores);
      domain := domainScores[best].0;
      CollectedFirstMax(table, scores, domainScores, origin, best);
      FirstMaxUnique(scores, origin[best], FirstMaxIndex(scores));
    } else {
      domain := GENERAL_SCIENCE;
    }
  }

  /** "General Science" comes out exactly when no keyword of any domain occurs. */
  lemma ClassifyGeneral(table: seq<(string, seq<string>)>, text: string)
    requires forall i | 0 <= i < |table| :: table[i].0 != GENERAL_SCIENCE
    ensures Classify(table, text) == GENERAL_SCIENCE <==>
      forall i, k | 0 <= i < |table| && 0 <= k < |table[i].1| :: !Contains(text, ToLower(table[i].1[k]))
  {
    var scores := Scores(table, text);
    if Classify(table, text) == GENERAL_SCIENCE {
      if exists i | 0 <= i < |scores| :: scores[i] > 0 {
        assert false;
      }
    }
  }

  /**
   * Otherwise the result is a domain of the table whose score is positive and
   * largest, and every domain listed before it scores strictly less.
   */
  lemma ClassifyMaximal(table: seq<(string, seq<string>)>, text: string)
    ensures var domain := Classify(table, text);
      || domain == GENERAL_SCIENCE
      || exists i | 0 <= i < |table| ::
           && table[i].0 == domain
           && KeywordScore(table[i].1, text) > 0
           && (forall j | 0 <= j < |table| :: KeywordScore(table[j].1, text) <= KeywordScore(table[i].1, text))
           && (forall j | 0 <= j < i :: KeywordScore(table[j].1, text) < KeywordScore(table[i].1, text))
  {
    var scores := Scores(table, text);
    if exists i | 0 <= i < |scores| :: scores[i] != 0 {
      var i :| 0 <= i < |scores| && scores[i] != 0;
      var m := FirstMaxIndex(scores);
      assert scores[m] >= scores[i] > 0;
    }
  }

  /** The result is always one of the table's domains or "General Science". */
  lemma ClassifyKnown(table: seq<(string, seq<string>)>, text: string)
    ensures Classify(table, text) == GENERAL_SCIENCE
         || exists i | 0 <= i < |table| :: table[i].0 == Classify(table, text)
  {
    ClassifyMaximal(table, text);
  }

  /** Lower-casing title or summary beforehand changes nothing: matching ignores case. */
  lemma DetectionIgnoresCase(title: string, summary: string)
    ensures DetectionText(ToLower(title), ToLower(summary)) == DetectionText(title, summary)
  {
    ToLowerConcat(title, " " + summary);
    ToLowerConcat(" ", summary);
    ToLowerConcat(ToLower(title), " " + ToLower(summary));
    ToLowerConcat(" ", ToLower(summary));
    ToLowerIdempotent(title);
    ToLowerIdempotent(summary);
  }

  // ---------------------------------------------------------------------------
  // Tag removal

  /**
   * For the text after a `<`: the index of the `>` that ends the shortest
   * match of `[^<]+?>` starting at index `k`, or None when a `<` or the end of
   * the text comes first.
   */
  function TagClose(t: string, k: nat): (close: Option<nat>)
    ensures close.Some? ==> 1 <= close.value < |t| && close.value >= k && t[close.value] == '>'
    decreases |t| - k
  {
    if k >= |t| then None
    else if t[k] == '<' then None
    else if t[k] == '>' && k >= 1 then Some(k)
    else TagClose(t, k + 1)
  }

  /** `re.sub('<[^<]+?>', '', s)`: every tag match removed, scanning left to right. */
  function StripTags(s: string): (r: string)
    ensures |r| <= |s|
    decreases |s|
  {
    if s == [] then []
    else if s[0] == '<' && TagClose(s[1..], 0).Some? then StripTags(s[TagClose(s[1..], 0).value + 2..])
    else [s[0]] + StripTags(s[1..])
  }

  /** Text without `<` has no tag to remove. */
  lemma {:induction false} StripTagsPlain(s: string)
    requires '<' !in s
    ensures StripTags(s) == s
    decreases |s|
  {
    if s != [] {
      assert s[1..] == s[1..];
      StripTagsPlain(s[1..]);
      assert [s[0]] + s[1..] == s;
    }
  }

  lemma {:induction false} TagCloseAt(name: string, rest: string, k: nat)
    requires |name| >= 1 && '<' !in name && '>' !in name && k <= |name|
    ensures TagClose(name + ">" + rest, k) == Some(|name|)
    decreases |name| - k
  {
    var t := name + ">" + rest;
    assert t[|name|] == '>';
    if k < |name| {
      assert t[k] == name[k];
      TagCloseAt(name, rest, k + 1);
    }
  }

  /** A leading tag `<name>` is removed and the rest is processed on its own. */
  lemma StripLeadingTag(name: string, rest: string)
    requires |name| >= 1 && '<' !in name && '>' !in name
    ensures StripTags("<" + name + ">" + rest) == StripTags(rest)
  {
    var s := "<" + name + ">" + rest;
    assert s[1..] == name + ">" + rest;
    TagCloseAt(name, rest, 0);
    assert s[|name| + 2..] == rest;
  }

  // ---------------------------------------------------------------------------
  // Feed entries to records

  /**
   * A parsed feed entry as far as it is read: each field may be missing.
   * `published`/`updated` are the timestamps already rendered in ISO form.
   */
  datatype FeedEntry = FeedEntry(
    title: Option<string>,
    link: Option<string>,
    published: Option<string>,
    updated: Option<string>,
    summary: Option<string>,
    description: Option<string>)

  /** `entry.get('summary', '') or entry.get('description', '')`. */
  function RawSummary(e: FeedEntry): string {
    if e.summary.Some? && e.summary.value != "" then e.summary.value else e.description.GetOr("")
  }

  /** The record's summary: the raw summary without tags, cut to 500 characters. */
  function SummaryText(e: FeedEntry): (text: string)
    ensures |text| <= SUMMARY_LIMIT && |text| <= |StripTags(RawSummary(e))|
    ensures text == StripTags(RawSummary(e))[..|text|]
    ensures |StripTags(RawSummary(e))| <= SUMMARY_LIMIT ==> text == StripTags(RawSummary(e))
  {
    Take(StripTags(RawSummary(e)), SUMMARY_LIMIT)
  }

  /** `published_parsed or updated_parsed`, else the current time. */
  function PublishedDate(e: FeedEntry, now: string): string {
    if e.published.Some? then e.published.value
    else if e.updated.Some? then e.updated.value
    else now
  }

  /**
   * The record one entry yields: none without a link; otherwise the title
   * (default "No Title"), link, domain detected with `table`, date, summary,
   * an empty full text and the feed's name.
   */
  function EntryRecord(table: seq<(string, seq<string>)>, e: FeedEntry, source: string, now: string): (r: Option<FeedArticle>)
    ensures r.None? <==> e.link.GetOr("") == ""
    ensures r.Some? ==>
      && r.value.link == e.link.value
      && r.value.title == e.title.GetOr(NO_TITLE)
      && r.value.domain == Classify(table, DetectionText(r.value.title, r.value.summary))
      && r.value.summary == SummaryText(e)
      && r.value.fullText == ""
      && r.value.source == source
      && (e.published.Some? ==> r.value.publishedDate == e.published.value)
      && (e.published.None? && e.updated.Some? ==> r.value.publishedDate == e.updated.value)
      && (e.published.None? && e.updated.None? ==> r.value.publishedDate == now)
  {
    var title := e.title.GetOr(NO_TITLE);
    var link := e.link.GetOr("");
    if link == "" then None
    else
      var summary := SummaryText(e);
      Some(FeedArticle(title, link, Classify(table, DetectionText(title, summary)),
                       PublishedDate(e, now), summary, "", source))
  }

  /** The records of one feed's entries, in entry order. */
  function FeedRecords(table: seq<(string, seq<string>)>, entries: seq<FeedEntry>, source: string, now: string): seq<FeedArticle>
    decreases |entries|
  {
    if entries == [] then []
    else
      var last := EntryRecord(table, entries[|entries| - 1], source, now);
      FeedRecords(table, entries[..|entries| - 1], source, now) + (if last.Some? then [last.value] else [])
  }

  /** The records of the feeds, feed by feed, each limited to its first `maxPerFeed` entries. */
  function FetchedRecords(feeds: seq<(string, string)>, table: seq<(string, seq<string>)>, maxPerFeed: nat,
                          parse: string -> seq<FeedEntry>, now: string): seq<FeedArticle>
    decreases |feeds|
  {
    if feeds == [] then []
    else
      var feed := feeds[|feeds| - 1];
      FetchedRecords(feeds[..|feeds| - 1], table, maxPerFeed, parse, now)
        + FeedRecords(table, Take(parse(feed.1), maxPerFeed), feed.0, now)
  }

  /**
   * `fetch_rss_articles(max_articles_per_feed)` over the configured feeds and
   * keywords. `parse` stands for downloading and parsing a feed URL; `now`
   * is the clock reading used for entries without a date.
   */
  method FetchRssArticles(maxPerFeed: nat, parse: string -> seq<FeedEntry>, now: string)
    returns (allArticles: seq<FeedArticle>)
    ensures allArticles == FetchedRecords(RSS_FEEDS, DOMAIN_KEYWORDS, maxPerFeed, parse, now)
  {
    allArticles := FetchArticlesWith(RSS_FEEDS, DOMAIN_KEYWORDS, maxPerFeed, parse, now);
  }

  /**
   * The same loop over any feed list and keyword table: for every feed in
   * order, its first entries are turned into records and appended; entries
   * without a link are skipped.
   */
  method FetchArticlesWith(feeds: seq<(string, string)>, table: seq<(string, seq<string>)>, maxPerFeed: nat,
                           parse: string -> seq<FeedEntry>, now: string)
    returns (allArticles: seq<FeedArticle>)
    ensures allArticles == FetchedRecords(feeds, table, maxPerFeed, parse, now)
  {
    allArticles := [];
    var f := 0;
    while f < |feeds|
      invariant 0 <= f <= |feeds|
      invariant allArticles == FetchedRecords(feeds[..f], table, maxPerFeed, parse, now)
    {
      var (sourceName, feedUrl) := feeds[f];
      var entries := Take(parse(feedUrl), maxPerFeed);
      ghost var before := allArticles;
      var n := 0;
      while n < |entries|
        invariant 0 <= n <= |entries|
        invariant allArticles == before + FeedRecords(table, entries[..n], sourceName, now)
      {
        var entry := entries[n];
        assert entries[..n + 1][..n] == entries[..n];
        var title := entry.title.GetOr(NO_TITLE);
        var link := entry.link.GetOr("");
        if link == "" {
          n := n + 1;
          continue;
        }
        var publishedDate := PublishedDate(entry, now);
        var summaryText := SummaryText(entry);
        var domain := DetectDomainWith(table, title, summaryText);
        var articleData := FeedArticle(title, link, domain, publishedDate, summaryText, "", sourceName);
        allArticles := allArticles + [articleData];
        n := n + 1;
      }
      assert entries[..n] == entries;
      assert feeds[..f + 1][..f] == feeds[..f];
      f := f + 1;
    }
    assert feeds[..f] == feeds;
  }

  /**
   * Every record of a feed comes from a linked entry and carries a known domain, an empty full text, a summary of at most 500
   * characters and the feed's name.
   */
  lemma {:induction false} FeedRecordsShape(table: seq<(string, seq<string>)>, entries: seq<FeedEntry>, source: string, now: string)
    ensures forall r | r in FeedRecords(table, entries, source, now) ::
      && r.link != "" && r.fullText == "" && |r.summary| <= SUMMARY_LIMIT && r.source == source
      && (r.domain == GENERAL_SCIENCE || exists i | 0 <= i < |table| :: table[i].0 == r.domain)
    decreases |entries|
  {
    if entries != [] {
      FeedRecordsShape(table, entries[..|entries| - 1], source, now);
      var last := EntryRecord(table, entries[|entries| - 1], source, now);
      if last.Some? {
        ClassifyKnown(table, DetectionText(last.value.title, last.value.summary));
      }
    }
  }

  /** A feed whose entries all have links yields one record per entry, in order. */
  lemma {:induction false} FeedRecordsAllLinked(table: seq<(string, seq<string>)>, entries: seq<FeedEntry>, source: string, now: string)
    requires forall i | 0 <= i < |entries| :: entries[i].link.GetOr("") != ""
    ensures |FeedRecords(table, entries, source, now)| == |entries|
    ensures forall i | 0 <= i < |entries| ::
      entries[i].link == Some(FeedRecords(table, entries, source, now)[i].link)
    decreases |entries|
  {
    if entries != [] {
      var init := entries[..|entries| - 1];
      var e := entries[|entries| - 1];
      FeedRecordsAllLinked(table, init, source, now);
      var last := EntryRecord(table, e, source, now);
      var prev := FeedRecords(table, init, source, now);
      assert FeedRecords(table, entries, source, now) == prev + [last.value];
      LinkedStep(prev, entries, last.value);
    }
  }

  lemma LinkedStep(records: seq<FeedArticle>, entries: seq<FeedEntry>, r: FeedArticle)
    requires |entries| == |records| + 1
    requires forall i | 0 <= i < |records| :: entries[i].link == Some(records[i].link)
    requires entries[|records|].link == Some(r.link)
    ensures forall i | 0 <= i < |entries| :: entries[i].link == Some((records + [r])[i].link)
  {
  }

  lemma MulStep(n: nat, m: nat)
    ensures (n + 1) * m == n * m + m
  {
  }

  /** A feed yields at most one record per entry. */
  lemma {:induction false} FeedRecordsLength(table: seq<(string, seq<string>)>, entries: seq<FeedEntry>, source: string, now: string)
    ensures |FeedRecords(table, entries, source, now)| <= |entries|
    decreases |entries|
  {
    if entries != [] {
      FeedRecordsLength(table, entries[..|entries| - 1], source, now);
    }
  }

  /**
   * Over all feeds there are at most `maxPerFeed` records per feed: the last
   * feed adds at most `maxPerFeed` records, all carrying its name, after the
   * records of the feeds before it, and so the total is at most
   * `|feeds| * maxPerFeed`.
   */
  lemma {:induction false} FetchedRecordsCount(feeds: seq<(string, string)>, table: seq<(string, seq<string>)>, maxPerFeed: nat,
                                               parse: string -> seq<FeedEntry>, now: string)
    ensures feeds != [] ==>
      var prev := FetchedRecords(feeds[..|feeds| - 1], table, maxPerFeed, parse, now);
      var all := FetchedRecords(feeds, table, maxPerFeed, parse, now);
      && prev <= all && |all| <= |prev| + maxPerFeed
      && forall k | |prev| <= k < |all| :: all[k].source == feeds[|feeds| - 1].0
    ensures |FetchedRecords(feeds, table, maxPerFeed, parse, now)| <= |feeds| * maxPerFeed
    decreases |feeds|
  {
    if feeds != [] {
      var init := feeds[..|feeds| - 1];
      var feed := feeds[|feeds| - 1];
      var entries := Take(parse(feed.1), maxPerFeed);
      var prev := FetchedRecords(init, table, maxPerFeed, parse, now);
      var seg := FeedRecords(table, entries, feed.0, now);
      var all := FetchedRecords(feeds, table, maxPerFeed, parse, now);
      assert all == prev + seg;
      FetchedRecordsCount(init, table, maxPerFeed, parse, now);
      FeedRecordsLength(table, entries, feed.0, now);
      FeedRecordsShape(table, entries, feed.0, now);
      forall k | |prev| <= k < |all|
        ensures all[k].source == feed.0
      {
        assert all[k] == seg[k - |prev|];
      }
      MulStep(|init|, maxPerFeed);
    }
  }

  /**
   * Over all feeds, every record has a link, an empty full text, a summary of
   * at most 500 characters, a domain of the table or "General Science", and
   * the name of the feed it came from.
   */
  lemma {:induction false} FetchedRecordsShape(feeds: seq<(string, string)>, table: seq<(string, seq<string>)>, maxPerFeed: nat,
                                               parse: string -> seq<FeedEntry>, now: string)
    ensures forall r | r in FetchedRecords(feeds, table, maxPerFeed, parse, now) ::
      && r.link != "" && r.fullText == "" && |r.summary| <= SUMMARY_LIMIT
      && (r.domain == GENERAL_SCIENCE || exists i | 0 <= i < |table| :: table[i].0 == r.domain)
      && exists i | 0 <= i < |feeds| :: feeds[i].0 == r.source
    decreases |feeds|
  {
    if feeds != [] {
      var init := feeds[..|feeds| - 1];
      var feed := feeds[|feeds| - 1];
      var entries := Take(parse(feed.1), maxPerFeed);
      FetchedRecordsShape(init, table, maxPerFeed, parse, now);
      FeedRecordsShape(table, entries, feed.0, now);
      forall r | r in FetchedRecords(feeds, table, maxPerFeed, parse, now)
        ensures && r.link != "" && r.fullText == "" && |r.summary| <= SUMMARY_LIMIT
                && (r.domain == GENERAL_SCIENCE || exists i | 0 <= i < |table| :: table[i].0 == r.domain)
                && exists i | 0 <= i < |feeds| :: feeds[i].0 == r.source
      {
        if r in FetchedRecords(init, table, maxPerFeed, parse, now) {
          var i :| 0 <= i < |init| && init[i].0 == r.source;
          assert feeds[i] == init[i];
        } else {
          assert r in FeedRecords(table, entries, feed.0, now);
          assert feeds[|feeds| - 1].0 == r.source;
        }
      }
    }
  }

  // ---------------------------------------------------------------------------
  // Full text

  /** One attempt to download and parse an article page. */
  datatype Download = Downloaded(text: string) | DownloadFailed

  const MAX_RETRIES: nat := 2

  /**
   * `extract_article_text(url, max_retries)` from attempt `k` on: the text of
   * the first attempt that succeeds, or "" when every remaining attempt fails.
   * `download(url, k)` stands for attempt `k` at fetching the page.
   */
  function ExtractFrom(url: string, download: (string, nat) -> Download, maxRetries: nat, k: nat): (text: string)
    ensures text == "" || exists j | k <= j < maxRetries :: download(url, j) == Downloaded(text)
    decreases maxRetries - k
  {
    if k >= maxRetries then ""
    else match download(url, k)
      case Downloaded(t) => t
      case DownloadFailed => ExtractFrom(url, download, maxRetries, k + 1)
  }

  function ExtractArticleText(url: string, download: (string, nat) -> Download, maxRetries: nat): (text: string)
    ensures text == "" || exists j | 0 <= j < maxRetries :: download(url, j) == Downloaded(text)
  {
    ExtractFrom(url, download, maxRetries, 0)
  }

  /** When no attempt succeeds the text is empty. */
  lemma {:induction false} ExtractAllFailed(url: string, download: (string, nat) -> Download, maxRetries: nat, k: nat)
    requires forall j | k <= j < maxRetries :: download(url, j) == DownloadFailed
    ensures ExtractFrom(url, download, maxRetries, k) == ""
    decreases maxRetries - k
  {
    if k < maxRetries {
      ExtractAllFailed(url, download, maxRetries, k + 1);
    }
  }

  /** The first successful attempt decides the text; later attempts are never made. */
  lemma {:induction false} ExtractFirstSuccess(url: string, download: (string, nat) -> Download, maxRetries: nat, k: nat, j: nat)
    requires k <= j < maxRetries && download(url, j).Downloaded?
    requires forall i | k <= i < j :: download(url, i) == DownloadFailed
    ensures ExtractFrom(url, download, maxRetries, k) == download(url, j).text
    decreases j - k
  {
    if k < j {
      ExtractFirstSuccess(url, download, maxRetries, k + 1, j);
    }
  }

  /**
   * `enrich_article_with_full_text`: only `full_text` changes, to the text
   * extracted from the article's link.
   */
  function Enrich(a: FeedArticle, download: (string, nat) -> Download): (r: FeedArticle)
    ensures r == a.(fullText := r.fullText)
    ensures r.fullText == "" || exists j | 0 <= j < MAX_RETRIES :: download(a.link, j) == Downloaded(r.fullText)
  {
    a.(fullText := ExtractArticleText(a.link, download, MAX_RETRIES))
  }
}
