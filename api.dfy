/**
 * backend/api.py: per-article enrichment, the order-preserving fan-out over the
 * articles, and the streamed sequence of status and data lines.
 * Concurrency is modelled as sequential evaluation in input order; the JSON
 * encoder of a line is a collaborator.
 */
module Api {
  import opened Outcomes
  import opened Strings
  import opened Json
  import opened Sentiment
  import opened Records
  import GetNews
  import Utils

  const FetchingNews := "fetching_news"
  const ProcessingArticles := "processing_articles"
  const RunningAnalysis := "running_analysis"
  const GeneratingAudio := "generating_audio"
  const NoArticlesFound := "No valid articles found."

  /** One streamed object, by its key. */
  datatype Event =
    | Status(phase: string)
    | Error(message: string)
    | ArticlesData(articles: seq<Article>)
    | ComparativeSentimentScore(score: Utils.ComparativeResult)
    | FinalSentimentAnalysis(analysis: Json)
    | Audio(path: string)

  /** The objects a run streams, and whether an exception ended the stream after them. */
  datatype Run = Run(events: seq<Event>, aborted: bool)

  /** Everything a run depends on besides the company name. */
  datatype Env = Env(
    maxArticles: int,
    web: GetNews.Web,
    services: Utils.Services,
    encode: Event -> string)

  // ---------------------------------------------------------------------------
  // Enrichment of one article

  /** Whether `process_article` returned normally, and the dictionary it leaves behind. */
  datatype Enrichment = Enrichment(ok: bool, article: Article)

  /**
   * `process_article` on a dictionary with contents `a`: topics and summary from
   * the summarizer's `topics` and `content` keys, then the sentiment of
   * `title + ": " + summary`. A reply without `topics` or `content` raises KeyError;
   * when only `content` is missing, `topics` has already been written.
   */
  function Enrich(a: Article, services: Utils.Services): Enrichment
  {
    match Utils.ExtractTopicsAndSummary(a.content, services)
    case Raised(_) => Enrichment(false, a)
    case Ok(reply) =>
      if "topics" !in reply then Enrichment(false, a)
      else
        var withTopics := a.(topics := Some(reply["topics"]));
        if "content" !in reply then Enrichment(false, withTopics)
        else
          var summary := reply["content"];
          var text := withTopics.title + ": " + Utils.Show(summary, services.render);
          Enrichment(true, withTopics.(summary := Some(summary),
                                       sentiment := Some(AnalyzeSentiment(text, services.polarity))))
  }

  /**
   * What `process_article` leaves in the dictionary: the identifying fields are
   * untouched; it returns normally exactly when the summarizer's reply parses and
   * has both keys, and then all three derived fields are set from that reply.
   */
  lemma EnrichSpec(a: Article, services: Utils.Services)
    ensures var e := Enrich(a, services);
      e.article.title == a.title && e.article.url == a.url && e.article.content == a.content
    ensures var e, reply := Enrich(a, services), Utils.ExtractTopicsAndSummary(a.content, services);
      e.ok <==> reply.Ok? && "topics" in reply.value && "content" in reply.value
    ensures var e, reply := Enrich(a, services), Utils.ExtractTopicsAndSummary(a.content, services);
      e.ok ==>
        && e.article.topics == Some(reply.value["topics"])
        && e.article.summary == Some(reply.value["content"])
        && e.article.sentiment ==
             Some(AnalyzeSentiment(a.title + ": " + Utils.Show(reply.value["content"], services.render), services.polarity))
        && IsEnriched(e.article)
    ensures var e := Enrich(a, services);
      !e.ok ==> e.article.summary == a.summary && e.article.sentiment == a.sentiment
  {
  }

  /** An article dictionary, which `process_article` updates in place. */
  class ArticleDict {
    var title: string
    var url: string
    var content: string
    var topics: Option<Json>
    var summary: Option<Json>
    var sentiment: Option<SentimentType>

    function Value(): Article
      reads this
    {
      Article(title, url, content, topics, summary, sentiment)
    }

    constructor (a: Article)
      ensures Value() == a
    {
      title, url, content := a.title, a.url, a.content;
      topics, summary, sentiment := a.topics, a.summary, a.sentiment;
    }
  }

  /** `process_article(article)`: `ok` is false when it raises. */
  method ProcessArticle(article: ArticleDict, services: Utils.Services) returns (ok: bool)
    modifies article
    ensures Enrichment(ok, article.Value()) == Enrich(old(article.Value()), services)
  {
    var parsed := Utils.ExtractTopicsAndSummary(article.content, services);
    if parsed.Raised? {
      return false;
    }
    var reply := parsed.value;
    if "topics" !in reply {
      return false;
    }
    article.topics := Some(reply["topics"]);
    if "content" !in reply {
      return false;
    }
    article.summary := Some(reply["content"]);
    var text := article.title + ": " + Utils.Show(article.summary.value, services.render);
    article.sentiment := Some(AnalyzeSentiment(text, services.polarity));
    return true;
  }

  /**
   * `process_articles_parallel(articles)`: every article is enriched (a failing task
   * does not stop the others), the result is the input list itself, and `ok` is
   * false when any task raised.
   */
  method ProcessArticlesParallel(articles: seq<ArticleDict>, services: Utils.Services)
    returns (ok: bool, results: seq<ArticleDict>)
    requires forall i, j :: 0 <= i < j < |articles| ==> articles[i] != articles[j]
    modifies articles
    ensures results == articles
    ensures Values(articles) == EnrichedArticles(EnrichAll(old(Values(articles)), services))
    ensures ok <==> AllSucceeded(EnrichAll(old(Values(articles)), services))
  {
    ghost var before := Values(articles);
    ghost var target := EnrichAll(before, services);
    ok := true;
    var i := 0;
    while i < |articles|
      invariant 0 <= i <= |articles|
      invariant forall k :: 0 <= k < i ==> articles[k].Value() == target[k].article
      invariant forall k :: i <= k < |articles| ==> articles[k].Value() == before[k]
      invariant ok <==> forall k :: 0 <= k < i ==> target[k].ok
    {
      var done := ProcessAt(articles, i, services, before);
      ok := ok && done;
      i := i + 1;
    }
    results := articles;
    assert Values(articles) == EnrichedArticles(target);
  }

  /** Task `i` of the fan-out, on a list whose contents were `before` when it started. */
  method ProcessAt(articles: seq<ArticleDict>, i: nat, services: Utils.Services, ghost before: seq<Article>)
    returns (done: bool)
    requires i < |articles| == |before| && articles[i].Value() == before[i]
    modifies articles[i]
    ensures done == EnrichAll(before, services)[i].ok
    ensures articles[i].Value() == EnrichAll(before, services)[i].article
  {
    done := ProcessArticle(articles[i], services);
    EnrichAllAt(before, services, i);
  }

  /** Enrichment of every fetched article, in input order. */
  function EnrichAll(articles: seq<Article>, services: Utils.Services): (r: seq<Enrichment>)
    ensures |r| == |articles|
    decreases |articles|
  {
    if articles == [] then [] else [Enrich(articles[0], services)] + EnrichAll(articles[1..], services)
  }

  /** The `k`-th enrichment is that of the `k`-th article. */
  lemma {:induction false} EnrichAllAt(articles: seq<Article>, services: Utils.Services, k: nat)
    requires k < |articles|
    ensures EnrichAll(articles, services)[k] == Enrich(articles[k], services)
    decreases k
  {
    if k > 0 {
      EnrichAllAt(articles[1..], services, k - 1);
    }
  }

  predicate AllSucceeded(enrichments: seq<Enrichment>) {
    forall k :: 0 <= k < |enrichments| ==> enrichments[k].ok
  }

  function EnrichedArticles(enrichments: seq<Enrichment>): seq<Article> {
    seq(|enrichments|, k requires 0 <= k < |enrichments| => enrichments[k].article)
  }

  // ---------------------------------------------------------------------------
  // The stream

  /** The eight objects of a run that completes with articles, in their fixed order. */
  predicate CompleteShape(events: seq<Event>) {
    && |events| == 8
    && events[0] == Status(FetchingNews)
    && events[1] == Status(ProcessingArticles)
    && events[2].ArticlesData?
    && events[3] == Status(RunningAnalysis)
    && events[4].ComparativeSentimentScore?
    && events[5].FinalSentimentAnalysis?
    && events[6] == Status(GeneratingAudio)
    && events[7].Audio?
  }

  /** How far a run gets: the step whose exception ends it, or what every step produced. */
  datatype Stage =
    | FetchRaised
    | NothingFound
    | EnrichmentRaised
    | AnalysisRaised(articles: seq<Article>)
    | NarrationRaised(articles: seq<Article>, score: Utils.ComparativeResult, analysis: Json)
    | Narrated(articles: seq<Article>, score: Utils.ComparativeResult, analysis: Json, path: string)

  /** The collaborator calls of a run, in the source's order, up to the first that raises. */
  function Progress(company: string, env: Env): (stage: Stage)
    ensures stage == FetchRaised <==> GetNews.FetchNews(company, env.maxArticles, env.web).Raised?
    ensures stage == NothingFound <==> GetNews.FetchNews(company, env.maxArticles, env.web) == Ok([])
  {
    var fetched := GetNews.FetchNews(company, env.maxArticles, env.web);
    if fetched.Raised? then FetchRaised else Processed(fetched.value, env.services)
  }

  /** The stage a run reaches once the fetch has returned `found`. */
  function Processed(found: seq<Article>, services: Utils.Services): (stage: Stage)
    ensures stage != FetchRaised
    ensures stage == NothingFound <==> found == []
    ensures stage == EnrichmentRaised <==> found != [] && !AllSucceeded(EnrichAll(found, services))
    ensures stage.AnalysisRaised? || stage.NarrationRaised? || stage.Narrated? ==>
      stage.articles == EnrichedArticles(EnrichAll(found, services))
  {
    if found == [] then NothingFound
    else
      var enrichments := EnrichAll(found, services);
      if !AllSucceeded(enrichments) then EnrichmentRaised
      else Analysed(EnrichedArticles(enrichments), services)
  }

  /** The stage a run reaches once every article is enriched: the analyses, then the narration. */
  function Analysed(articles: seq<Article>, services: Utils.Services): (stage: Stage)
    ensures stage.AnalysisRaised? || stage.NarrationRaised? || stage.Narrated?
    ensures stage.articles == articles
  {
    var comparative := Utils.ComparativeAnalysis(articles, services);
    var final := Utils.FinalAnalysis(articles, services);
    if comparative.Raised? || final.Raised? then AnalysisRaised(articles)
    else Narration(articles, comparative.value, final.value, services)
  }

  /** The stage a run reaches once both analyses are done: the narration of the final analysis. */
  function Narration(articles: seq<Article>, score: Utils.ComparativeResult, analysis: Json,
                     services: Utils.Services): (stage: Stage)
    ensures stage.NarrationRaised? || stage.Narrated?
    ensures stage.articles == articles && stage.score == score && stage.analysis == analysis
  {
    var audio := Utils.GenerateHindiTts(analysis, services);
    if audio.Raised? then NarrationRaised(articles, score, analysis)
    else Narrated(articles, score, analysis, audio.value)
  }

  /** The objects yielded once a run has reached `stage`. */
  function Layout(stage: Stage): (run: Run)
    ensures |run.events| >= 1 && run.events[0] == Status(FetchingNews)
    ensures run == Run([Status(FetchingNews), Error(NoArticlesFound)], false) <==> stage == NothingFound
    ensures !run.aborted ==>
      run.events == [Status(FetchingNews), Error(NoArticlesFound)] || CompleteShape(run.events)
    ensures run.aborted ==> forall k :: 0 <= k < |run.events| ==> !run.events[k].Error? && !run.events[k].Audio?
  {
    var started := [Status(FetchingNews), Status(ProcessingArticles)];
    match stage
    case FetchRaised => Run([Status(FetchingNews)], true)
    case NothingFound => Run([Status(FetchingNews), Error(NoArticlesFound)], false)
    case EnrichmentRaised => Run(started, true)
    case AnalysisRaised(articles) =>
      Run(started + [ArticlesData(articles), Status(RunningAnalysis)], true)
    case NarrationRaised(articles, score, analysis) =>
      Run(started + [ArticlesData(articles), Status(RunningAnalysis),
                     ComparativeSentimentScore(score), FinalSentimentAnalysis(analysis),
                     Status(GeneratingAudio)], true)
    case Narrated(articles, score, analysis, path) =>
      Run(started + [ArticlesData(articles), Status(RunningAnalysis),
                     ComparativeSentimentScore(score), FinalSentimentAnalysis(analysis),
                     Status(GeneratingAudio), Audio(path)], false)
  }

  /** `stream_news_analysis(company)`, as the objects it yields. */
  function StreamEvents(company: string, env: Env): (run: Run)
    ensures |run.events| >= 1 && run.events[0] == Status(FetchingNews)
    ensures run == Run([Status(FetchingNews), Error(NoArticlesFound)], false) <==>
      GetNews.FetchNews(company, env.maxArticles, env.web) == Ok([])
    ensures !run.aborted ==>
      run.events == [Status(FetchingNews), Error(NoArticlesFound)] || CompleteShape(run.events)
    ensures run.aborted ==> forall k :: 0 <= k < |run.events| ==> !run.events[k].Error? && !run.events[k].Audio?
  {
    Layout(Progress(company, env))
  }

  /** Every step after the fetch succeeds: all enrichments, both analyses and the narration. */
  predicate NextStepsSucceed(fetched: seq<Article>, services: Utils.Services) {
    && AllSucceeded(EnrichAll(fetched, services))
    && var articles := EnrichedArticles(EnrichAll(fetched, services));
       && Utils.ComparativeAnalysis(articles, services).Ok?
       && Utils.FinalAnalysis(articles, services).Ok?
       && Utils.GenerateHindiTts(Utils.FinalAnalysis(articles, services).value, services).Ok?
  }

  /**
   * A run ends normally exactly when the fetch returns, and either finds nothing
   * or every later step (all enrichments, both analyses, the narration) succeeds.
   */
  lemma RunCompletesExactly(company: string, env: Env)
    ensures var fetched := GetNews.FetchNews(company, env.maxArticles, env.web);
      !StreamEvents(company, env).aborted <==>
        && fetched.Ok?
        && (fetched.value == [] || NextStepsSucceed(fetched.value, env.services))
  {
    var fetched := GetNews.FetchNews(company, env.maxArticles, env.web);
    var stage := Progress(company, env);
    assert !Layout(stage).aborted <==> stage == NothingFound || stage.Narrated?;
    if fetched.Ok? && fetched.value != [] {
      assert stage == Processed(fetched.value, env.services);
      ProcessedNarrated(fetched.value, env.services);
    }
  }

  /** A nonempty fetch is narrated exactly when every later step succeeds. */
  lemma ProcessedNarrated(found: seq<Article>, services: Utils.Services)
    requires found != []
    ensures Processed(found, services).Narrated? <==> NextStepsSucceed(found, services)
  {
  }

  /** In every layout, the comparative score comes right before the final analysis. */
  lemma ComparativePrecedesFinal(stage: Stage)
    ensures var events := Layout(stage).events;
      forall j :: 0 <= j < |events| && events[j].FinalSentimentAnalysis? ==>
        j > 0 && events[j - 1].ComparativeSentimentScore?
    ensures var events := Layout(stage).events;
      forall i, j ::
        (0 <= i < |events| && 0 <= j < |events|
         && events[i].ComparativeSentimentScore? && events[j].FinalSentimentAnalysis?) ==> i < j
  {
  }

  /** Where the data lines sit in a layout, and what they carry. */
  lemma LayoutData(stage: Stage, k: nat)
    requires k < |Layout(stage).events|
    ensures Layout(stage).events[k].ArticlesData? ==>
      && k == 2
      && (stage.AnalysisRaised? || stage.NarrationRaised? || stage.Narrated?)
      && Layout(stage).events[k].articles == stage.articles
    ensures Layout(stage).events[k].ComparativeSentimentScore? ==>
      && k == 4
      && (stage.NarrationRaised? || stage.Narrated?)
      && Layout(stage).events[k].score == stage.score
      && Layout(stage).events[2] == ArticlesData(stage.articles)
  {
  }

  /** The articles a run hands to the analyses are the enrichments of the fetched list, all successful. */
  lemma ProgressArticles(company: string, env: Env)
    requires var stage := Progress(company, env);
      stage.AnalysisRaised? || stage.NarrationRaised? || stage.Narrated?
    ensures var fetched := GetNews.FetchNews(company, env.maxArticles, env.web);
      && fetched.Ok? && fetched.value != []
      && AllSucceeded(EnrichAll(fetched.value, env.services))
      && Progress(company, env).articles == EnrichedArticles(EnrichAll(fetched.value, env.services))
  {
  }

  /** The score a run streams is the comparative analysis of the streamed articles. */
  lemma ProgressScore(company: string, env: Env)
    requires var stage := Progress(company, env);
      stage.NarrationRaised? || stage.Narrated?
    ensures var stage := Progress(company, env);
      Utils.ComparativeAnalysis(stage.articles, env.services) == Ok(stage.score)
  {
    ProgressArticles(company, env);
    var found := GetNews.FetchNews(company, env.maxArticles, env.web).value;
    var articles := EnrichedArticles(EnrichAll(found, env.services));
    assert Progress(company, env) == Analysed(articles, env.services);
    AnalysedScore(articles, env.services);
  }

  /** Past the analyses, the score carried is the comparative analysis of the articles. */
  lemma AnalysedScore(articles: seq<Article>, services: Utils.Services)
    requires var stage := Analysed(articles, services); stage.NarrationRaised? || stage.Narrated?
    ensures Utils.ComparativeAnalysis(articles, services) == Ok(Analysed(articles, services).score)
  {
  }

  /** A narrated run after enrichment streams the final analysis of its articles and the default audio path. */
  lemma AnalysedNarrated(articles: seq<Article>, services: Utils.Services)
    requires Analysed(articles, services).Narrated?
    ensures var stage := Analysed(articles, services);
      && Utils.FinalAnalysis(articles, services) == Ok(stage.analysis)
      && stage.path == Utils.AudioPath(Utils.DefaultAudioFile)
  {
  }

  /** A layout that ends normally with eight lines is that of a narrated run, whose data it carries. */
  lemma CompletedLayout(stage: Stage)
    requires !Layout(stage).aborted && CompleteShape(Layout(stage).events)
    ensures stage.Narrated?
    ensures var events := Layout(stage).events;
      && events[2] == ArticlesData(stage.articles)
      && events[5] == FinalSentimentAnalysis(stage.analysis)
      && events[7] == Audio(stage.path)
  {
  }

  /** A narrated run streams the final analysis of its articles and the default audio path. */
  lemma ProgressNarrated(company: string, env: Env)
    requires Progress(company, env).Narrated?
    ensures var stage := Progress(company, env);
      && Utils.FinalAnalysis(stage.articles, env.services) == Ok(stage.analysis)
      && stage.path == Utils.AudioPath(Utils.DefaultAudioFile)
  {
    ProgressArticles(company, env);
    var found := GetNews.FetchNews(company, env.maxArticles, env.web).value;
    var articles := EnrichedArticles(EnrichAll(found, env.services));
    assert Progress(company, env) == Analysed(articles, env.services);
    AnalysedNarrated(articles, env.services);
  }

  /**
   * In a run that completes, the final-analysis line carries the final analysis of
   * the streamed articles, and the audio line carries `/static/output.mp3`.
   */
  lemma CompletedRunTail(company: string, env: Env)
    requires var run := StreamEvents(company, env); !run.aborted && CompleteShape(run.events)
    ensures var events := StreamEvents(company, env).events;
      && Utils.FinalAnalysis(events[2].articles, env.services).Ok?
      && events[5] == FinalSentimentAnalysis(Utils.FinalAnalysis(events[2].articles, env.services).value)
      && events[7] == Audio("/static/output.mp3")
  {
    var stage := Progress(company, env);
    assert StreamEvents(company, env) == Layout(stage);
    CompletedLayout(stage);
    ProgressNarrated(company, env);
    Utils.DefaultAudioPath();
  }

  /**
   * The articles line carries every fetched article, in fetch order, each enriched
   * from its own dictionary with title, url and content unchanged.
   */
  lemma ArticlesLineFaithful(company: string, env: Env, k: nat)
    requires var events := StreamEvents(company, env).events;
      k < |events| && events[k].ArticlesData?
    ensures var fetched := GetNews.FetchNews(company, env.maxArticles, env.web);
      var list := StreamEvents(company, env).events[k].articles;
      && k == 2
      && fetched.Ok?
      && |list| == |fetched.value|
      && forall i :: 0 <= i < |list| ==>
           && list[i] == Enrich(fetched.value[i], env.services).article
           && IsEnriched(list[i])
           && list[i].title == fetched.value[i].title
           && list[i].url == fetched.value[i].url
           && list[i].content == fetched.value[i].content
  {
    var stage := Progress(company, env);
    assert StreamEvents(company, env) == Layout(stage);
    LayoutData(stage, k);
    ProgressArticles(company, env);
    var fetched := GetNews.FetchNews(company, env.maxArticles, env.web).value;
    forall i | 0 <= i < |fetched|
      ensures && EnrichedArticles(EnrichAll(fetched, env.services))[i] == Enrich(fetched[i], env.services).article
              && IsEnriched(Enrich(fetched[i], env.services).article)
              && Enrich(fetched[i], env.services).article.title == fetched[i].title
              && Enrich(fetched[i], env.services).article.url == fetched[i].url
              && Enrich(fetched[i], env.services).article.content == fetched[i].content
    {
      assert EnrichAll(fetched, env.services)[i].ok;
      EnrichAllAt(fetched, env.services, i);
      EnrichSpec(fetched[i], env.services);
    }
  }

  /** When some article's enrichment raises, the stream ends after the processing status, with no error line. */
  lemma EnrichmentFailureEndsStream(company: string, env: Env, i: nat)
    requires var fetched := GetNews.FetchNews(company, env.maxArticles, env.web);
      fetched.Ok? && i < |fetched.value| && !Enrich(fetched.value[i], env.services).ok
    ensures StreamEvents(company, env) == Run([Status(FetchingNews), Status(ProcessingArticles)], true)
  {
    var fetched := GetNews.FetchNews(company, env.maxArticles, env.web);
    EnrichAllAt(fetched.value, env.services, i);
    assert !EnrichAll(fetched.value, env.services)[i].ok;
  }

  /** The distribution in the comparative score counts every streamed article once. */
  lemma ScoreCountsEveryArticle(company: string, env: Env, k: nat)
    requires var events := StreamEvents(company, env).events;
      k < |events| && events[k].ComparativeSentimentScore?
    ensures var events := StreamEvents(company, env).events;
      var d := events[k].score.sentimentDistribution;
      && k == 4
      && events[2].ArticlesData?
      && d.Keys == {Positive, Negative, Neutral}
      && d[Positive] + d[Negative] + d[Neutral] == |events[2].articles|
      && |events[2].articles| == |GetNews.FetchNews(company, env.maxArticles, env.web).value|
  {
    var stage := Progress(company, env);
    assert StreamEvents(company, env) == Layout(stage);
    LayoutData(stage, k);
    ProgressArticles(company, env);
    ProgressScore(company, env);
  }

  // ---------------------------------------------------------------------------
  // Line framing

  /** One yielded chunk: the serialised object followed by a newline. */
  function Frame(e: Event, encode: Event -> string): (chunk: string)
    ensures |chunk| >= 1 && chunk[|chunk| - 1] == '\n'
    ensures '\n' !in encode(e) ==> forall i :: 0 <= i < |chunk| - 1 ==> chunk[i] != '\n'
  {
    encode(e) + "\n"
  }

  function Wire(events: seq<Event>, encode: Event -> string): seq<string> {
    seq(|events|, k requires 0 <= k < |events| => Frame(events[k], encode))
  }

  /** Framing one more event appends its chunk. */
  lemma WireSnoc(events: seq<Event>, e: Event, encode: Event -> string)
    ensures Wire(events + [e], encode) == Wire(events, encode) + [Frame(e, encode)]
  {
  }

  function Concat(chunks: seq<string>): string
    decreases |chunks|
  {
    if chunks == [] then "" else chunks[0] + Concat(chunks[1..])
  }

  /**
   * A client reading the response body line by line gets back exactly one
   * serialised object per event, in order, as long as the encoder writes no newline.
   */
  lemma {:induction false} FramingRoundTrip(events: seq<Event>, encode: Event -> string)
    requires forall k :: 0 <= k < |events| ==> '\n' !in encode(events[k])
    ensures Lines(Concat(Wire(events, encode))) == seq(|events|, k requires 0 <= k < |events| => encode(events[k]))
    decreases |events|
  {
    if events != [] {
      var wire := Wire(events, encode);
      assert wire[1..] == Wire(events[1..], encode);
      FramingRoundTrip(events[1..], encode);
      LinesCons(encode(events[0]), Concat(wire[1..]));
      assert Concat(wire) == encode(events[0]) + "\n" + Concat(wire[1..]);
    }
  }

  // ---------------------------------------------------------------------------
  // The generator

  /** Fresh dictionary objects holding the fetched values, one per article. */
  method NewArticleDicts(items: seq<Article>) returns (dicts: seq<ArticleDict>)
    ensures |dicts| == |items|
    ensures forall k :: 0 <= k < |dicts| ==> fresh(dicts[k]) && dicts[k].Value() == items[k]
    ensures forall i, j :: 0 <= i < j < |dicts| ==> dicts[i] != dicts[j]
  {
    dicts := [];
    var i := 0;
    while i < |items|
      invariant 0 <= i <= |items| && |dicts| == i
      invariant forall k :: 0 <= k < i ==> fresh(dicts[k]) && dicts[k].Value() == items[k]
      invariant forall i, j :: 0 <= i < j < |dicts| ==> dicts[i] != dicts[j]
    {
      var d := new ArticleDict(items[i]);
      dicts := dicts + [d];
      i := i + 1;
    }
  }

  /** The contents of the dictionaries, as `json.dumps` sees them at that moment. */
  function Values(dicts: seq<ArticleDict>): (r: seq<Article>)
    reads dicts
    ensures |r| == |dicts| && forall k :: 0 <= k < |dicts| ==> r[k] == dicts[k].Value()
    decreases |dicts|
  {
    if dicts == [] then [] else [dicts[0].Value()] + Values(dicts[1..])
  }

  /**
   * The enrichment step of the generator: the fetched values become dictionary
   * objects, all of them are processed, and their contents are read back.
   */
  method EnrichFetched(found: seq<Article>, services: Utils.Services) returns (ok: bool, articles: seq<Article>)
    ensures ok <==> AllSucceeded(EnrichAll(found, services))
    ensures ok ==> articles == EnrichedArticles(EnrichAll(found, services))
  {
    var dicts := NewArticleDicts(found);
    assert Values(dicts) == found;
    var processed;
    ok, processed := ProcessArticlesParallel(dicts, services);
    articles := Values(processed);
  }

  /**
   * The generator once the fetch has returned, continuing the chunk of the first
   * status line: the no-articles error, or the enrichment and what follows it.
   */
  method Process(found: seq<Article>, services: Utils.Services, encode: Event -> string,
                 fetching: seq<string>)
    returns (chunks: seq<string>, aborted: bool)
    requires fetching == Wire(Layout(FetchRaised).events, encode)
    ensures chunks == Wire(Layout(Processed(found, services)).events, encode)
    ensures aborted == Layout(Processed(found, services)).aborted
  {
    ghost var events := Layout(FetchRaised).events;
    chunks := fetching;
    if found == [] {
      WireSnoc(events, Error(NoArticlesFound), encode);
      events := events + [Error(NoArticlesFound)];
      chunks := chunks + [Frame(Error(NoArticlesFound), encode)];
      assert events == Layout(NothingFound).events;
      return chunks, false;
    }
    WireSnoc(events, Status(ProcessingArticles), encode);
    events := events + [Status(ProcessingArticles)];
    chunks := chunks + [Frame(Status(ProcessingArticles), encode)];
    assert events == Layout(EnrichmentRaised).events;
    var ok, articles := EnrichFetched(found, services);
    if !ok {
      return chunks, true;
    }
    chunks, aborted := Analyse(articles, services, encode, chunks);
  }

  /**
   * The generator from the articles line to the analyses, continuing the chunks
   * of the first two status lines.
   */
  method Analyse(articles: seq<Article>, services: Utils.Services, encode: Event -> string,
                 started: seq<string>)
    returns (chunks: seq<string>, aborted: bool)
    requires started == Wire(Layout(EnrichmentRaised).events, encode)
    ensures chunks == Wire(Layout(Analysed(articles, services)).events, encode)
    ensures aborted == Layout(Analysed(articles, services)).aborted
  {
    ghost var events := Layout(EnrichmentRaised).events;
    chunks := started;
    WireSnoc(events, ArticlesData(articles), encode);
    events := events + [ArticlesData(articles)];
    chunks := chunks + [Frame(ArticlesData(articles), encode)];
    WireSnoc(events, Status(RunningAnalysis), encode);
    events := events + [Status(RunningAnalysis)];
    chunks := chunks + [Frame(Status(RunningAnalysis), encode)];
    assert events == Layout(AnalysisRaised(articles)).events;
    var comparative := Utils.ComparativeAnalysis(articles, services);
    var final := Utils.FinalAnalysis(articles, services);
    if comparative.Raised? || final.Raised? {
      return chunks, true;
    }
    chunks, aborted := Narrate(articles, comparative.value, final.value, services, encode, chunks);
  }

  /**
   * The generator from the score line on, continuing the chunks up to the
   * analysis status line: both analyses, then the narration.
   */
  method Narrate(articles: seq<Article>, score: Utils.ComparativeResult, analysis: Json,
                 services: Utils.Services, encode: Event -> string, analysing: seq<string>)
    returns (chunks: seq<string>, aborted: bool)
    requires analysing == Wire(Layout(AnalysisRaised(articles)).events, encode)
    ensures chunks == Wire(Layout(Narration(articles, score, analysis, services)).events, encode)
    ensures aborted == Layout(Narration(articles, score, analysis, services)).aborted
  {
    ghost var events := Layout(AnalysisRaised(articles)).events;
    chunks := analysing;
    WireSnoc(events, ComparativeSentimentScore(score), encode);
    events := events + [ComparativeSentimentScore(score)];
    chunks := chunks + [Frame(ComparativeSentimentScore(score), encode)];
    WireSnoc(events, FinalSentimentAnalysis(analysis), encode);
    events := events + [FinalSentimentAnalysis(analysis)];
    chunks := chunks + [Frame(FinalSentimentAnalysis(analysis), encode)];
    WireSnoc(events, Status(GeneratingAudio), encode);
    events := events + [Status(GeneratingAudio)];
    chunks := chunks + [Frame(Status(GeneratingAudio), encode)];
    var audio := Utils.GenerateHindiTts(analysis, services);
    if audio.Raised? {
      assert events == Layout(NarrationRaised(articles, score, analysis)).events;
      return chunks, true;
    }
    WireSnoc(events, Audio(audio.value), encode);
    events := events + [Audio(audio.value)];
    chunks := chunks + [Frame(Audio(audio.value), encode)];
    assert events == Layout(Narrated(articles, score, analysis, audio.value)).events;
    return chunks, false;
  }

  /**
   * `stream_news_analysis(company)`: the chunks it yields, in order, and whether an
   * exception ended the stream after them.
   */
  method StreamNewsAnalysis(company: string, env: Env) returns (chunks: seq<string>, aborted: bool)
    ensures chunks == Wire(StreamEvents(company, env).events, env.encode)
    ensures aborted == StreamEvents(company, env).aborted
  {
    chunks := [Frame(Status(FetchingNews), env.encode)];
    assert chunks == Wire(Layout(FetchRaised).events, env.encode);
    var fetched := GetNews.GetGoogleNews(company, env.maxArticles, env.web);
    if fetched.Raised? {
      return chunks, true;
    }
    chunks, aborted := Process(fetched.value, env.services, env.encode, chunks);
  }
}
