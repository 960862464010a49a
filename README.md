# News sentiment pipeline: a verified model of its core

The system takes a company name, fetches recent news articles about it, and
enriches each article with a summary, topics and a sentiment label. It then
produces a comparative analysis across the articles and a final narrative
summary, and narrates that summary as Hindi audio. While it runs, it streams
one JSON object per line to the caller.

This Dafny project models the deterministic logic under the network,
text-generation and speech calls, and proves properties of it. Every external
call is a function-typed parameter:

- `GetNews.Web` covers the search request, the HEAD check and the page fetch,
  including the HTML parsing.
- `Utils.Services` covers the three text-generation prompts, `json.loads`,
  `str()`, the polarity scorer, and translation plus speech synthesis.
- `Api.Env` covers `MAX_ARTICLES` and the JSON encoder of a streamed object.

Modules, one per source concern:

- `Outcomes`: `Option`, the exceptions the pipeline raises, and `Result` (a
  value or the exception that ended the computation).
- `Strings`: the string tests the code makes (`in`, `startswith`, `join`,
  `str(n)`), the first-occurrence and last-occurrence searches with which the model
  expresses the brace search of the generated replies, and reading a body line by
  line. The redirect search has its own position-by-position model in `GetNews`.
- `Json`, `Sentiment`, `Records`: JSON values, the three sentiment labels, and
  the article dictionary.
- `Utils` (backend/utils.py):
  - the `{…}` span of a generated reply, with its ValueError;
  - the sentiment classifier and distribution;
  - the numbered summary texts fed to the prompts;
  - the two analyses;
  - the audio path.
- `GetNews` (backend/get_news.py):
  - the search URL;
  - title and link defaults;
  - unwrapping of `/url?q=…&` redirects;
  - the skip rules;
  - the capped selection loop, as the imperative method `GetGoogleNews`,
    proved equal to the recursive definition `FetchNews`.

  `FetchNews` is characterised in turn: after a search that answers 200 and
  whose result links all have an `href`, it is "the first `MAX_ARTICLES` kept
  results, in order". A link without an `href` raises KeyError when the loop
  reaches it before the cap.
- `Api` (backend/api.py):
  - `process_article`, as a method that updates an `ArticleDict` object in
    place;
  - `process_articles_parallel`, over a sequence of such objects, in input
    order;
  - the generator `stream_news_analysis`, as the method `StreamNewsAnalysis`
    and its phase methods. They are proved to yield exactly
    `Wire(StreamEvents(company, env).events)`: the framed events of a pure
    specification of the run, whose ordering, early-exit and content
    properties are proved as lemmas.

Two behaviours of the code are worth stating outright:

- An empty company name is not rejected; it is searched for like any other.
- When enrichment, an analysis or the narration raises, no `error` line is
  emitted. The stream simply ends after the lines already yielded, which the
  model records as `Run.aborted`.

## Model

| member | source | states |
|---|---|---|
| Strings.FindFrom | backend/utils.py:29 | The first index at or after `start` where the pattern occurs, None exactly when it occurs nowhere from `start` on; where the brace pattern's `{` is found. It also underlies `in` (backend/get_news.py:54, through Strings.Contains) |
| Strings.Contains | backend/get_news.py:54 | `p in s` holds exactly when `p` occurs in `s` at some index |
| Strings.LastIndexOf | backend/utils.py:29 | The last index holding the character, None exactly when it is absent; where the greedy `.*` of the brace pattern ends |
| Strings.JoinCons | backend/utils.py:71-72 | `sep.join` read from the front: the first part, the separator, then the remaining parts joined; the contract of Strings.Join, which appends the parts from the back |
| Strings.NatToString | backend/utils.py:72 | `str(n)` is a nonempty string of decimal digits with no leading zero |
| Strings.DecimalRoundTrip | backend/utils.py:72 | Reading back the decimal text printed for a number gives that number |
| Sentiment.AnalyzeSentiment | backend/utils.py:34-43 | Positive exactly when polarity > 0; Negative exactly when < 0; Neutral exactly when 0 |
| Records.Fetched | backend/get_news.py:57-61 | A fetched record carries only title, url and content; no enrichment key is present |
| Utils.BraceSpan | backend/utils.py:29 | A span exists exactly when some `{` precedes some `}`. The span starts with `{`, ends with `}`, occurs in the content with no `{` before it and no `}` after it: first `{` to last `}` |
| Utils.Ask | backend/utils.py:55-60 | One generation call and `response_to_dict`: a failed call raises, otherwise the result is `response_to_dict` of the content, and it succeeds exactly when the content's brace span exists and parses |
| Utils.ExtractTopicsAndSummary | backend/utils.py:45-60 | Succeeds exactly when the summarizer call returns content whose brace span parses, and then returns that parse; content without a parsable span raises ValueError |
| Utils.ResponseToDict | backend/utils.py:26-32 | Succeeds exactly when the span exists and parses, returning the parsed dictionary; otherwise raises ValueError with the fixed message |
| Utils.TopicsText | backend/utils.py:72 | A list of topics joins to the strings separated by ", ", and succeeds exactly when every item is a string; a string is joined character by character; a non-iterable value raises TypeError |
| Utils.CountsSum | backend/utils.py:64-69 | When every article has a sentiment, the Positive, Negative and Neutral counts add up to the number of articles |
| Utils.SentimentDistribution | backend/utils.py:64-69 | Succeeds exactly when every article has a sentiment (KeyError otherwise). The keys are exactly the three labels, each mapped to its count, and the counts sum to the number of articles |
| Utils.Numbered | backend/utils.py:71-74 | Entry k is the entry built for number k+1 and article k, one per article in order; the error raised is that of some article's entry |
| Utils.ComparisonEntry | backend/utils.py:72 | KeyError for a missing summary, then for missing topics; succeeds exactly when both are present and the topics join. The entry is `Article n: summary`, a newline, then `Key Topics:` and the joined topics |
| Utils.FinalEntry | backend/utils.py:105 | KeyError exactly when the summary is missing; otherwise the entry `Article n: summary` |
| Utils.CombinedSummaries | backend/utils.py:71-74 | Succeeds exactly when every article's comparison entry, numbered from 1, can be built; its text is characterised by Utils.CombinedSummariesAppend |
| Utils.FinalSummaries | backend/utils.py:105 | Succeeds exactly when every article has a summary; its text is characterised by Utils.FinalSummariesAppend |
| Utils.CombinedSummariesAppend | backend/utils.py:71-74 | The comparison text grows by article: one more article appends a blank line and an entry numbered one past the others |
| Utils.FinalSummariesAppend | backend/utils.py:105 | The final-analysis text grows the same way, each added entry being `Article n: summary` |
| Utils.ComparativeAnalysis | backend/utils.py:62-101 | Succeeds exactly when the distribution and the combined text exist and the reply parses with both keys. The distribution is copied over, `coverage_differences` and `topic_overlap` are taken from the reply verbatim, and the counts sum to the number of articles |
| Utils.FinalAnalysis | backend/utils.py:103-120 | Succeeds exactly when the summary text exists and the reply parses with `final_sentiment_analysis`; the result is that key's value |
| Utils.AudioPath | backend/utils.py:129 | The path is the prefix `/static/` followed by exactly the file name |
| Utils.DefaultAudioPath | backend/utils.py:122-129 | Without a file name, the path is `/static/output.mp3` |
| Utils.GenerateHindiTts | backend/utils.py:122-131 | Succeeds exactly when translation and synthesis to the path succeed; returns the path under `/static/`, for `output.mp3` by default |
| GetNews.SearchUrl | backend/get_news.py:18 | The URL is the fixed prefix, the unescaped company name, then the fixed suffix |
| GetNews.IsValidUrl | backend/get_news.py:9-15 | A URL is valid exactly when the HEAD request answers 200; a raising request counts as invalid |
| GetNews.TitleOf | backend/get_news.py:35-36 | The title element's text, or `No Title` when the block has none |
| GetNews.RawHref | backend/get_news.py:38 | KeyError exactly for an anchor without `href`; `#` without an anchor; the `href` otherwise |
| GetNews.PageAccepted | backend/get_news.py:47-55 | A page is kept exactly when it answers 200 and its text contains neither challenge phrase |
| GetNews.MatchAtUnique | backend/get_news.py:40 | A match starting at a given `q=` has exactly one end: the lazy group stops at the first `&` |
| GetNews.MatchAtLazyEnd | backend/get_news.py:40 | At a `q=`, a match ends at a position exactly when that position is the first `&` or newline after the `q=` and holds an `&` |
| GetNews.LazyEnd | backend/get_news.py:40 | The first `&` or newline at or after a position, None when neither occurs |
| GetNews.RedirectFromSpec | backend/get_news.py:40 | The search from a position gives the group of the leftmost match starting at or after it, and None exactly when no match starts there (the contract of `GetNews.RedirectFrom`, which tries each start position in turn) |
| GetNews.RedirectTarget | backend/get_news.py:40-41 | None exactly when no match exists; otherwise the group of the leftmost match: the text between a `q=` and the next `&`, with no `&` and no newline in it (`.` does not match a newline) |
| GetNews.NewlineStopsRedirect | backend/get_news.py:39-41 | `/url?q=a`, a newline, `b&x` has no match, so this link is unwrapped to `#` |
| GetNews.RedirectSkipsBrokenMatch | backend/get_news.py:39-41 | `/url?q=a`, a newline, `q=b&` gives the group `b`, which becomes the link: the first `q=` is passed over |
| GetNews.Unwrap | backend/get_news.py:39-41 | An href starting with `/url?` becomes its redirect target, or `#` without a match; any other href is unchanged |
| GetNews.Visit | backend/get_news.py:35-64 | Raises exactly for an anchor without href. Otherwise a record is kept exactly when the URL check passes and the page is a 200 without challenge text; a kept record has the defaulted title, the unwrapped URL and the page text as content |
| GetNews.Select | backend/get_news.py:31-64 | The loop from a point on. It raises only when some remaining result has an anchor without `href`; its other properties are GetNews.SelectShape and GetNews.SelectIsCappedFilter |
| GetNews.FetchNews | backend/get_news.py:17-26 | A raising search request raises; a non-200 search yields the empty list |
| GetNews.PickedAreKept | backend/get_news.py:31-61 | Every selected article is the record a visit of some search result keeps |
| GetNews.SelectShape | backend/get_news.py:31-64 | The loop keeps what it has collected and stops at the cap. What it adds is a selection of the remaining results, in order |
| GetNews.FetchNewsShape | backend/get_news.py:17-66 | The fetched list has at most max(0, MAX_ARTICLES) entries and is a selection of the search results in their order |
| GetNews.SelectIsCappedFilter | backend/get_news.py:31-64 | Without href-less anchors, the loop returns what it has plus the first (cap minus collected) kept results |
| GetNews.FetchNewsIsCappedFilter | backend/get_news.py:17-66 | After a 200 search without href-less anchors, the fetch returns exactly the first MAX_ARTICLES kept results, in order |
| GetNews.GetGoogleNews | backend/get_news.py:17-66 | The loop computes the fetch. The result is capped, every record is a plain fetched record, and each record is kept from some search result |
| Api.Enrich | backend/api.py:16-25 | Enrichment of one dictionary value; its contract is stated by Api.EnrichSpec |
| Api.EnrichSpec | backend/api.py:16-25 | Title, url and content are untouched. It returns normally exactly when the reply parses with `topics` and `content`; then topics, summary and the sentiment of `title: summary` are set from the reply. Otherwise summary and sentiment are unchanged |
| Api.ProcessArticle | backend/api.py:16-25 | The in-place update of the dictionary object and the normal return are exactly those of the enrichment |
| Api.ProcessArticlesParallel | backend/api.py:27-30 | Returns the same list of objects; object k holds the enrichment of its own old contents; success exactly when every task succeeded |
| Api.ProcessAt | backend/api.py:29 | Task i leaves object i holding the i-th enrichment and reports its success |
| Api.EnrichAll | backend/api.py:29-30 | The list of enrichments has one entry per article; entry k is given by Api.EnrichAllAt |
| Api.EnrichAllAt | backend/api.py:29-30 | The k-th result of the order-preserving map is the enrichment of the k-th article |
| Api.EnrichFetched | backend/api.py:41-42 | The fetched values are enriched: success exactly when all tasks succeed, and then the articles are their enrichments, in order |
| Api.Progress | backend/api.py:34-42 | The stage a run reaches: the fetch raised exactly when `get_google_news` raises, and nothing found exactly when it returns the empty list |
| Api.Processed | backend/api.py:37-43 | After the fetch: the no-articles exit exactly for the empty list; the enrichment failure exactly when some enrichment of a nonempty list raises; any later stage carries the enrichments of the fetched articles, in order |
| Api.Analysed | backend/api.py:45-49 | After enrichment a run either aborts in the analyses or goes on to the narration, carrying the enriched list unchanged |
| Api.Narration | backend/api.py:53-55 | The narration either aborts or completes, carrying the list, the score and the final analysis unchanged |
| Api.Layout | backend/api.py:34-55 | Every run starts with the fetching status. It is exactly `[fetching status, no-articles error]` for the empty fetch. A run that ends normally is that or the eight-line sequence in fixed order. An aborted run holds no error and no audio line |
| Api.StreamEvents | backend/api.py:32-55 | The stream starts with the fetching status. It is exactly `[fetching status, no-articles error]` when the fetch returns the empty list. Otherwise it ends normally only in the eight-line shape |
| Api.RunCompletesExactly | backend/api.py:32-55 | The stream ends normally exactly when the fetch returns and either finds nothing or every later step succeeds |
| Api.ProcessedNarrated | backend/api.py:41-55 | A nonempty fetch reaches the audio line exactly when every later step succeeds |
| Api.ComparativePrecedesFinal | backend/api.py:46-51 | The comparative score line always comes right before the final-analysis line |
| Api.LayoutData | backend/api.py:43-51 | The articles line is line 3 and the score line is line 5; they carry the stage's articles and score |
| Api.AnalysedNarrated | backend/api.py:46-54 | A narrated run after enrichment carries the final analysis of its articles and the default audio path |
| Api.CompletedLayout | backend/api.py:43-55 | A layout that ends normally with eight lines belongs to a narrated run, and lines 3, 6 and 8 carry its articles, final analysis and audio path |
| Api.ProgressNarrated | backend/api.py:42-54 | In a narrated run, the analysis is the final analysis of the streamed articles and the path is `/static/output.mp3` |
| Api.CompletedRunTail | backend/api.py:51-55 | In a completed stream, the final-analysis line carries the final analysis of the streamed articles and the audio line `/static/output.mp3` |
| Api.ProgressArticles | backend/api.py:42-43 | The articles handed to the analyses are the enrichments of the fetched nonempty list, all of them successful |
| Api.ProgressScore | backend/api.py:46-50 | The streamed score is the comparative analysis of the streamed articles |
| Api.AnalysedScore | backend/api.py:46-50 | Past the analyses, the score a run carries is the comparative analysis of its enriched articles |
| Api.ArticlesLineFaithful | backend/api.py:42-43 | The articles line holds one entry per fetched article, in fetch order. Entry i is article i enriched, carrying all three derived keys, with title, url and content unchanged |
| Api.EnrichmentFailureEndsStream | backend/api.py:42-43 | When any article's enrichment raises, the stream is exactly the two status lines and then ends, with no error line |
| Api.ScoreCountsEveryArticle | backend/api.py:43-50 | The score's distribution has exactly the three labels, and its counts sum to the number of streamed and fetched articles |
| Api.Frame | backend/api.py:34 | Each chunk ends with a newline, and holds no other newline when the serialised object has none |
| Api.FramingRoundTrip | backend/api.py:34-55 | Reading the concatenated chunks line by line gives back exactly one serialised object per event, in order |
| Api.Process | backend/api.py:37-42 | After the fetch, the chunks are the framed events of the run from there: the error line for an empty list, otherwise the enrichment and what follows |
| Api.Analyse | backend/api.py:43-49 | From the articles line through the analyses, the chunks are the framed events of that part of the run |
| Api.Narrate | backend/api.py:50-55 | From the score line to the audio line, the chunks are the framed events of that part of the run |
| Api.StreamNewsAnalysis | backend/api.py:32-55 | The yielded chunks are exactly the framed events of the run, and the stream is ended by an exception exactly when the run aborts |

## Left out

- HTTP and HTML (`requests.get`, `requests.head`, timeouts, BeautifulSoup) are not modelled; `GetNews.Web` supplies each result already parsed: its search response, its HEAD status and its page.
- `GetNews.FetchNews`: `MAX_ARTICLES` is an integer parameter. The source calls `int(os.getenv(...))` once per loop pass; when the variable is missing or not numeric, that raises, but only once there is a result to visit. The model does not capture this.
- The TextBlob polarity computation is floating point and lives in a foreign library. It is the parameter `polarity`; only the sign mapping is modelled.
- The text-generation client and the prompt wording are left out. Each prompt is one function of the text that varies in it, returning the reply content, or None when the call raises.
- `Utils.Ask`: a reply with no choices or a null content makes the source's bare `except` raise ValueError. The model represents it as a reply content without a brace span, which raises the same ValueError.
- `json.loads` is the parameter `parse`. `json.dumps` of a streamed object is the parameter `encode`; only the one-object-per-line framing is modelled.
- `str()` of a non-string JSON value inside an f-string is the parameter `render`.
- `Utils.TopicsText`: when `topics` is a JSON object, `', '.join` joins its keys in dictionary order. The model raises TypeError there, because it does not model dictionary order.
- Translation (googletrans), speech synthesis (gTTS) and saving the file are one success bit, `narrate`; only the returned path is modelled. The file is saved to the absolute path `/static/…`, while the server mounts the relative directory `static`; the model keeps only the path string.
- `Api.ProcessArticlesParallel`: `asyncio.gather`, `run_in_executor` and `to_thread` are modelled as sequential evaluation in input order. Every task still runs to completion, as gather does not cancel its siblings. Which exception surfaces when several tasks raise is not modelled; the run simply aborts.
- `Api.StreamEvents`: exception messages are not part of the stream, since none reaches it. An abort is the boolean `aborted`.
- The article dictionaries the fetcher builds are values (`Records.Article`) until enrichment, where they become `Api.ArticleDict` objects.
- The FastAPI application is not part of this model: the route, `StreamingResponse`, the static mount, the creation of the `static` directory and `/ping`.
- The code has no empty-company check; the model follows the code.
- Non-request exceptions raised while a page is being parsed are not modelled.
