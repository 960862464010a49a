/**
 * The deterministic parts of backend/utils.py: reading a JSON object out of a
 * generated reply, counting sentiments, building the numbered summary texts fed
 * to the prompts, assembling the comparative and final analyses, and the audio path.
 * The text-generation service, the JSON parser, Python's `str()` of non-string
 * values, the polarity scorer and the translation and speech services are
 * collaborators passed in as functions.
 */
module Utils {
  import opened Outcomes
  import opened Strings
  import opened Json
  import opened Sentiment
  import opened Records

  /** The external collaborators of utils.py. */
  datatype Services = Services(
    // Reply content of the text-generation service to the topics-and-summary
    // prompt built around an article text; None when the call raises.
    summarize: string -> Option<string>,
    // Reply content to the comparison prompt built around the combined summaries.
    compare: string -> Option<string>,
    // Reply content to the final-analysis prompt built around the summary list.
    conclude: string -> Option<string>,
    // `json.loads` on a text; None when it raises.
    parse: string -> Option<JsonObject>,
    // `str()` of a JSON value that is not a string, as an f-string prints it.
    render: Json -> string,
    // The polarity the sentiment scorer assigns to a text.
    polarity: string -> real,
    // Translation to Hindi, speech synthesis and saving to the given path succeed.
    narrate: (Json, string) -> bool)

  const NoJsonMessage := "No valid JSON found in the response content."

  /**
   * The text the pattern `\{.*\}` (greedy, dot matching newlines) finds in
   * `content`: from the first `{` to the last `}`, when that `}` comes later.
   */
  function BraceSpan(content: string): (span: Option<string>)
    ensures span.Some? <==>
      exists p, q :: 0 <= p < q < |content| && content[p] == '{' && content[q] == '}'
    ensures span.Some? ==>
      |span.value| >= 2 && span.value[0] == '{' && span.value[|span.value| - 1] == '}'
    ensures span.Some? ==>
      exists p: nat :: Occurs(content, span.value, p)
        && (forall k :: 0 <= k < p ==> content[k] != '{')
        && (forall k :: p + |span.value| <= k < |content| ==> content[k] != '}')
  {
    var first := FindFrom(content, "{", 0);
    var last := LastIndexOf(content, '}');
    if first.Some? && last.Some? && first.value < last.value then
      var p, q := first.value, last.value;
      OccursChar(content, '{', p);
      forall k | 0 <= k < p ensures content[k] != '{' {
        OccursChar(content, '{', k);
      }
      assert Occurs(content, content[p..q + 1], p);
      Some(content[p..q + 1])
    else
      assert forall p, q :: 0 <= p < q < |content| && content[p] == '{' && content[q] == '}' ==> false by {
        forall p, q | 0 <= p < q < |content| && content[p] == '{' && content[q] == '}'
          ensures false
        {
          OccursChar(content, '{', p);
        }
      }
      None
  }

  /**
   * `response_to_dict` on the reply content: the dictionary parsed from the brace
   * span, or ValueError when there is no span or the span does not parse.
   */
  function ResponseToDict(content: string, parse: string -> Option<JsonObject>): (r: Result<JsonObject>)
    ensures r.Ok? <==> BraceSpan(content).Some? && parse(BraceSpan(content).value).Some?
    ensures r.Ok? ==> r.value == parse(BraceSpan(content).value).value
    ensures r.Raised? ==> r.exception == ValueError(NoJsonMessage)
  {
    match BraceSpan(content)
    case None => Raised(ValueError(NoJsonMessage))
    case Some(span) =>
      match parse(span)
      case None => Raised(ValueError(NoJsonMessage))
      case Some(obj) => Ok(obj)
  }

  /** One call of the text-generation service followed by `response_to_dict`. */
  function Ask(reply: Option<string>, parse: string -> Option<JsonObject>): (r: Result<JsonObject>)
    ensures reply.None? ==> r == Raised(RequestError("llm"))
    ensures reply.Some? ==> r == ResponseToDict(reply.value, parse)
    ensures r.Ok? <==> reply.Some? && BraceSpan(reply.value).Some? && parse(BraceSpan(reply.value).value).Some?
  {
    match reply
    case None => Raised(RequestError("llm"))
    case Some(content) => ResponseToDict(content, parse)
  }

  /** `extract_topics_and_summary(text)` */
  function ExtractTopicsAndSummary(text: string, services: Services): (r: Result<JsonObject>)
    ensures var reply := services.summarize(text);
      r.Ok? <==> reply.Some? && BraceSpan(reply.value).Some? && services.parse(BraceSpan(reply.value).value).Some?
    ensures r.Ok? ==> r.value == services.parse(BraceSpan(services.summarize(text).value).value).value
    ensures services.summarize(text).Some? && r.Raised? ==> r.exception == ValueError(NoJsonMessage)
  {
    Ask(services.summarize(text), services.parse)
  }

  /** How an f-string prints a JSON value: a string as itself, anything else through `str()`. */
  function Show(j: Json, render: Json -> string): string {
    if j.JString? then j.str else render(j)
  }

  /**
   * `', '.join(topics)`: a list of strings is joined; a string is joined character
   * by character; anything else raises TypeError.
   */
  function TopicsText(topics: Json): (r: Result<string>)
    ensures topics.JArray? ==>
      (r.Ok? <==> forall k :: 0 <= k < |topics.items| ==> topics.items[k].JString?)
    ensures topics.JArray? && r.Ok? ==>
      r.value == Join(", ", seq(|topics.items|, k requires 0 <= k < |topics.items| => topics.items[k].str))
    ensures topics.JString? ==>
      r == Ok(Join(", ", seq(|topics.str|, k requires 0 <= k < |topics.str| => [topics.str[k]])))
    ensures !topics.JArray? && !topics.JString? ==> r.Raised?
  {
    match topics
    case JArray(items) =>
      if forall k :: 0 <= k < |items| ==> items[k].JString? then
        Ok(Join(", ", seq(|items|, k requires 0 <= k < |items| => items[k].str)))
      else Raised(TypeError("sequence item: expected str instance"))
    case JString(s) =>
      Ok(Join(", ", seq(|s|, k requires 0 <= k < |s| => [s[k]])))
    case _ =>
      Raised(TypeError("can only join an iterable"))
  }

  // ---------------------------------------------------------------------------
  // Sentiment distribution

  /** The number of articles whose `sentiment` is `t`. */
  function CountLabel(articles: seq<Article>, t: SentimentType): nat
    decreases |articles|
  {
    if articles == [] then 0
    else (if articles[0].sentiment == Some(t) then 1 else 0) + CountLabel(articles[1..], t)
  }

  /** When every article has a sentiment, the three counts add up to the number of articles. */
  lemma {:induction false} CountsSum(articles: seq<Article>)
    requires forall k :: 0 <= k < |articles| ==> articles[k].sentiment.Some?
    ensures CountLabel(articles, Positive) + CountLabel(articles, Negative)
          + CountLabel(articles, Neutral) == |articles|
    decreases |articles|
  {
    if articles != [] {
      var t := articles[0].sentiment.value;
      assert t == Positive || t == Negative || t == Neutral;
      CountsSum(articles[1..]);
    }
  }

  /**
   * The `Counter` over `article['sentiment']`, read back for the three labels:
   * KeyError when some article has no sentiment.
   */
  function SentimentDistribution(articles: seq<Article>): (r: Result<map<SentimentType, nat>>)
    ensures r.Ok? <==> forall k :: 0 <= k < |articles| ==> articles[k].sentiment.Some?
    ensures r.Ok? ==> r.value.Keys == {Positive, Negative, Neutral}
    ensures r.Ok? ==> forall t :: t in r.value ==> r.value[t] == CountLabel(articles, t)
    ensures r.Ok? ==> r.value[Positive] + r.value[Negative] + r.value[Neutral] == |articles|
  {
    if forall k :: 0 <= k < |articles| ==> articles[k].sentiment.Some? then
      CountsSum(articles);
      Ok(map[Positive := CountLabel(articles, Positive),
             Negative := CountLabel(articles, Negative),
             Neutral := CountLabel(articles, Neutral)])
    else
      Raised(KeyError("sentiment"))
  }

  // ---------------------------------------------------------------------------
  // Numbered summary texts

  /**
   * The list comprehension over `enumerate(articles)`: entry `k` is `entry(k + 1, articles[k])`;
   * the first entry to raise ends it.
   */
  function Numbered(articles: seq<Article>, entry: (nat, Article) -> Result<string>): (r: Result<seq<string>>)
    ensures r.Ok? <==> forall k :: 0 <= k < |articles| ==> entry(k + 1, articles[k]).Ok?
    ensures r.Ok? ==> |r.value| == |articles|
    ensures r.Ok? ==> forall k :: 0 <= k < |articles| ==> r.value[k] == entry(k + 1, articles[k]).value
    ensures r.Raised? ==> exists k :: 0 <= k < |articles| && entry(k + 1, articles[k]) == Raised(r.exception)
    decreases |articles|
  {
    if articles == [] then Ok([])
    else
      var init := articles[..|articles| - 1];
      match Numbered(init, entry)
      case Raised(e) => Raised(e)
      case Ok(entries) =>
        match entry(|articles|, articles[|articles| - 1])
        case Raised(e) => Raised(e)
        case Ok(last) => Ok(entries + [last])
  }

  /** `f"Article {i+1}: {article['summary']}\nKey Topics: {', '.join(article['topics'])}"` */
  function ComparisonEntry(number: nat, a: Article, render: Json -> string): (r: Result<string>)
    ensures r.Ok? <==> a.summary.Some? && a.topics.Some? && TopicsText(a.topics.value).Ok?
    ensures a.summary.None? ==> r == Raised(KeyError("summary"))
    ensures a.summary.Some? && a.topics.None? ==> r == Raised(KeyError("topics"))
    ensures r.Ok? ==>
      r.value == "Article " + NatToString(number) + ": " + Show(a.summary.value, render)
                 + "\nKey Topics: " + TopicsText(a.topics.value).value
  {
    if a.summary.None? then Raised(KeyError("summary"))
    else if a.topics.None? then Raised(KeyError("topics"))
    else
      var topics :- TopicsText(a.topics.value);
      Ok("Article " + NatToString(number) + ": " + Show(a.summary.value, render) + "\nKey Topics: " + topics)
  }

  /** `f"Article {i+1}: {article['summary']}"` */
  function FinalEntry(number: nat, a: Article, render: Json -> string): (r: Result<string>)
    ensures r.Ok? <==> a.summary.Some?
    ensures r.Raised? ==> r.exception == KeyError("summary")
    ensures r.Ok? ==> r.value == "Article " + NatToString(number) + ": " + Show(a.summary.value, render)
  {
    if a.summary.None? then Raised(KeyError("summary"))
    else Ok("Article " + NatToString(number) + ": " + Show(a.summary.value, render))
  }

  /** The combined summaries of `comparative_analysis`: the comparison entries joined by blank lines. */
  function CombinedSummaries(articles: seq<Article>, render: Json -> string): (r: Result<string>)
    ensures r.Ok? <==> forall k :: 0 <= k < |articles| ==> ComparisonEntry(k + 1, articles[k], render).Ok?
  {
    var entries :- Numbered(articles, (n: nat, a: Article) => ComparisonEntry(n, a, render));
    Ok(Join("\n\n", entries))
  }

  /** The combined summaries of `final_analysis`: the final entries joined by blank lines. */
  function FinalSummaries(articles: seq<Article>, render: Json -> string): (r: Result<string>)
    ensures r.Ok? <==> forall k :: 0 <= k < |articles| ==> articles[k].summary.Some?
  {
    var entries :- Numbered(articles, (n: nat, a: Article) => FinalEntry(n, a, render));
    Ok(Join("\n\n", entries))
  }

  /** Enumerating one more article adds its entry, numbered one past the others, at the end. */
  lemma NumberedAppend(articles: seq<Article>, a: Article, entry: (nat, Article) -> Result<string>)
    requires Numbered(articles + [a], entry).Ok?
    ensures Numbered(articles, entry).Ok? && entry(|articles| + 1, a).Ok?
    ensures Numbered(articles + [a], entry).value == Numbered(articles, entry).value + [entry(|articles| + 1, a).value]
  {
    var all := articles + [a];
    assert all[..|all| - 1] == articles;
  }

  /** Joining one more part adds the separator and the part. */
  lemma JoinAppend(sep: string, parts: seq<string>, x: string)
    ensures Join(sep, parts + [x]) == if parts == [] then x else Join(sep, parts) + sep + x
  {
    var all := parts + [x];
    assert all[..|all| - 1] == parts;
  }

  /**
   * The combined text grows one entry per article: appending an article appends a
   * blank line and its entry, numbered one past the articles before it.
   */
  lemma CombinedSummariesAppend(articles: seq<Article>, a: Article, render: Json -> string)
    requires CombinedSummaries(articles + [a], render).Ok?
    ensures CombinedSummaries(articles, render).Ok?
    ensures ComparisonEntry(|articles| + 1, a, render).Ok?
    ensures CombinedSummaries(articles + [a], render).value ==
      if articles == [] then ComparisonEntry(1, a, render).value
      else CombinedSummaries(articles, render).value + "\n\n" + ComparisonEntry(|articles| + 1, a, render).value
  {
    var entry := (n: nat, x: Article) => ComparisonEntry(n, x, render);
    NumberedAppend(articles, a, entry);
    var init := Numbered(articles, entry).value;
    assert |init| == |articles|;
    JoinAppend("\n\n", init, entry(|articles| + 1, a).value);
  }

  /** The same for the final-analysis list, whose entries carry only the summary. */
  lemma FinalSummariesAppend(articles: seq<Article>, a: Article, render: Json -> string)
    requires FinalSummaries(articles + [a], render).Ok?
    ensures FinalSummaries(articles, render).Ok?
    ensures a.summary.Some?
    ensures FinalSummaries(articles + [a], render).value ==
      var entry := "Article " + NatToString(|articles| + 1) + ": " + Show(a.summary.value, render);
      if articles == [] then entry
      else FinalSummaries(articles, render).value + "\n\n" + entry
  {
    var entry := (n: nat, x: Article) => FinalEntry(n, x, render);
    NumberedAppend(articles, a, entry);
    var init := Numbered(articles, entry).value;
    assert |init| == |articles|;
    JoinAppend("\n\n", init, entry(|articles| + 1, a).value);
  }

  // ---------------------------------------------------------------------------
  // The two analyses

  datatype ComparativeResult = ComparativeResult(
    sentimentDistribution: map<SentimentType, nat>,
    coverageDifferences: Json,
    topicOverlap: Json)

  /** `comparative_analysis(articles)` */
  function ComparativeAnalysis(articles: seq<Article>, services: Services): (r: Result<ComparativeResult>)
    ensures r.Ok? <==>
      && SentimentDistribution(articles).Ok?
      && CombinedSummaries(articles, services.render).Ok?
      && var reply := Ask(services.compare(CombinedSummaries(articles, services.render).value), services.parse);
         reply.Ok? && "coverage_differences" in reply.value && "topic_overlap" in reply.value
    ensures r.Ok? ==>
      var reply := Ask(services.compare(CombinedSummaries(articles, services.render).value), services.parse).value;
      && r.value.sentimentDistribution == SentimentDistribution(articles).value
      && r.value.coverageDifferences == reply["coverage_differences"]
      && r.value.topicOverlap == reply["topic_overlap"]
    ensures r.Ok? ==>
      var d := r.value.sentimentDistribution;
      d.Keys == {Positive, Negative, Neutral} && d[Positive] + d[Negative] + d[Neutral] == |articles|
  {
    var distribution :- SentimentDistribution(articles);
    var combined :- CombinedSummaries(articles, services.render);
    var analysis :- Ask(services.compare(combined), services.parse);
    if "coverage_differences" !in analysis then Raised(KeyError("coverage_differences"))
    else if "topic_overlap" !in analysis then Raised(KeyError("topic_overlap"))
    else Ok(ComparativeResult(distribution, analysis["coverage_differences"], analysis["topic_overlap"]))
  }

  /** `final_analysis(articles)` */
  function FinalAnalysis(articles: seq<Article>, services: Services): (r: Result<Json>)
    ensures r.Ok? <==>
      && FinalSummaries(articles, services.render).Ok?
      && var reply := Ask(services.conclude(FinalSummaries(articles, services.render).value), services.parse);
         reply.Ok? && "final_sentiment_analysis" in reply.value
    ensures r.Ok? ==>
      r.value == Ask(services.conclude(FinalSummaries(articles, services.render).value), services.parse).value["final_sentiment_analysis"]
  {
    var combined :- FinalSummaries(articles, services.render);
    var analysis :- Ask(services.conclude(combined), services.parse);
    if "final_sentiment_analysis" !in analysis then Raised(KeyError("final_sentiment_analysis"))
    else Ok(analysis["final_sentiment_analysis"])
  }

  // ---------------------------------------------------------------------------
  // Audio

  const StaticPrefix := "/static/"
  const DefaultAudioFile := "output.mp3"

  /** The path the narration is saved to and returned as: `filename` inside the static directory. */
  function AudioPath(filename: string): (path: string)
    ensures StartsWith(path, StaticPrefix)
    ensures path[|StaticPrefix|..] == filename
  {
    StaticPrefix + filename
  }

  /** Without a file name the narration goes to `/static/output.mp3`. */
  lemma DefaultAudioPath()
    ensures AudioPath(DefaultAudioFile) == "/static/output.mp3"
  {
  }

  /** `generate_hindi_tts(text, filename)`: the audio path, once translation and synthesis succeed. */
  function GenerateHindiTts(text: Json, services: Services, filename: string := DefaultAudioFile): (r: Result<string>)
    ensures r.Ok? <==> services.narrate(text, AudioPath(filename))
    ensures r.Ok? ==> r.value == AudioPath(filename)
  {
    var path := AudioPath(filename);
    if services.narrate(text, path) then Ok(path) else Raised(RequestError("tts"))
  }
}
