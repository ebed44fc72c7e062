/**
 * Record shapes exchanged between the browser dashboard and the news service:
 * the stored article, the paged list response, per-domain counts, and the
 * refresh endpoints' bodies; plus the article dictionary the ingest pipeline
 * passes from the feed reader to the store.
 */
module Types {

  /** A stored article as the service returns it (one row of the `articles` table). */
  datatype Article = Article(
    id: int,
    title: string,
    link: string,
    domain: string,
    publishedDate: string,
    summary: string,
    fullText: string,
    source: string,
    createdAt: string)

  /** Body of `GET /articles`. */
  datatype ArticlesResponse = ArticlesResponse(
    articles: seq<Article>,
    total: int,
    page: int,
    pageSize: int)

  /** One entry of `GET /domains`. */
  datatype DomainStats = DomainStats(domain: string, count: int)

  /** Body of `POST /refresh`. */
  datatype RefreshResponse = RefreshResponse(status: string, message: string, newArticles: int)

  /** Body of `GET /refresh/status`. */
  datatype RefreshStatus = RefreshStatus(isRefreshing: bool)

  /** The article dictionary built from one feed entry, before it is stored. */
  datatype FeedArticle = FeedArticle(
    title: string,
    link: string,
    domain: string,
    publishedDate: string,
    summary: string,
    fullText: string,
    source: string)
}
