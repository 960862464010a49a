/** The article dictionary passed between the fetcher, the enrichment and the analysis. */
module Records {
  import opened Outcomes
  import opened Json
  import opened Sentiment

  /**
   * The contents of one article dictionary. The fetcher creates the keys
   * `title`, `url` and `content`; enrichment adds `topics`, `summary` and
   * `sentiment`, modelled as optional fields (`None` = key absent).
   */
  datatype Article = Article(
    title: string,
    url: string,
    content: string,
    topics: Option<Json>,
    summary: Option<Json>,
    sentiment: Option<SentimentType>)

  /** A dictionary as the fetcher builds it: exactly the keys title, url and content. */
  predicate IsFetched(a: Article) {
    a.topics.None? && a.summary.None? && a.sentiment.None?
  }

  /** A dictionary that carries all three enrichment keys. */
  predicate IsEnriched(a: Article) {
    a.topics.Some? && a.summary.Some? && a.sentiment.Some?
  }

  function Fetched(title: string, url: string, content: string): (a: Article)
    ensures IsFetched(a)
  {
    Article(title, url, content, None, None, None)
  }
}
