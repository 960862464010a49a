/**
 * backend/get_news.py: the candidate-selection loop over the search results.
 * The HTTP requests and the HTML parsing are collaborators: `Web` gives the
 * search response with its result blocks already parsed, the status of a HEAD
 * request, and the status and visible text of a page.
 */
module GetNews {
  import opened Outcomes
  import opened Strings
  import opened Records

  /** The first `<a>` of a result block: absent, present without `href`, or with one. */
  datatype Link = NoLink | LinkWithoutHref | Href(href: string)

  /** One `div.Gx5Zad` result block: the text of its title element, if any, and its link. */
  datatype SearchResult = SearchResult(titleText: Option<string>, link: Link)

  datatype SearchResponse = SearchRaised | SearchPage(status: int, results: seq<SearchResult>)
  datatype HeadResponse = HeadRaised | HeadStatus(status: int)
  datatype PageResponse = PageRaised | PageStatus(status: int, text: string)

  datatype Web = Web(
    search: string -> SearchResponse,
    head: string -> HeadResponse,
    get: string -> PageResponse)

  const SearchPrefix := "https://www.google.com/search?q="
  const SearchSuffix := "+news&hl=en&tbm=nws&num=100"
  const NoTitle := "No Title"
  const NoUrl := "#"
  const RedirectPrefix := "/url?"
  const JustAMoment := "Just a moment..."
  const CheckingBrowser := "Checking your browser"

  /** The news-search URL: the company name is inserted as it is, without escaping. */
  function SearchUrl(companyName: string): (url: string)
    ensures |url| == |SearchPrefix| + |companyName| + |SearchSuffix|
    ensures StartsWith(url, SearchPrefix)
    ensures url[|SearchPrefix|..|SearchPrefix| + |companyName|] == companyName
    ensures url[|SearchPrefix| + |companyName|..] == SearchSuffix
  {
    SearchPrefix + companyName + SearchSuffix
  }

  /** `is_valid_url(url)`: the HEAD request answers 200; an exception counts as invalid. */
  predicate IsValidUrl(url: string, web: Web): (valid: bool)
    ensures valid <==> web.head(url) == HeadStatus(200)
  {
    match web.head(url)
    case HeadRaised => false
    case HeadStatus(status) => status == 200
  }

  /** The text of the title element, or "No Title" when the block has none. */
  function TitleOf(result: SearchResult): (title: string)
    ensures result.titleText.Some? ==> title == result.titleText.value
    ensures result.titleText.None? ==> title == NoTitle
  {
    result.titleText.GetOr(NoTitle)
  }

  /** `result.a["href"] if result.a else "#"`; an anchor without `href` raises KeyError. */
  function RawHref(result: SearchResult): (r: Result<string>)
    ensures r.Raised? <==> result.link == LinkWithoutHref
    ensures result.link == NoLink ==> r == Ok(NoUrl)
    ensures result.link.Href? ==> r == Ok(result.link.href)
  {
    match result.link
    case NoLink => Ok(NoUrl)
    case LinkWithoutHref => Raised(KeyError("href"))
    case Href(h) => Ok(h)
  }

  /**
   * `re.search(r'q=(?P<url>(.*?))&', href)` can match at `p` with its group ending
   * at `q`: `q=` starts at `p`, and `q` holds the first `&` after it. Between them
   * there is no `&`, because the lazy group stops at the first one. There is no
   * newline either, because `.` without DOTALL does not match one. The group is
   * `href[p + 2..q]`.
   */
  predicate MatchAt(href: string, p: nat, q: nat) {
    && p + 2 <= q < |href|
    && href[p] == 'q' && href[p + 1] == '='
    && href[q] == '&'
    && forall k :: p + 2 <= k < q ==> href[k] != '&' && href[k] != '\n'
  }

  /** A match at `p` has a single group: the lazy group ends at the first `&`. */
  lemma MatchAtUnique(href: string, p: nat, q: nat, q': nat)
    requires MatchAt(href, p, q) && MatchAt(href, p, q')
    ensures q == q'
  {
  }

  /**
   * Where the lazy group started at `start` stops: the first `&` or newline at or
   * after `start`. None when neither occurs.
   */
  function LazyEnd(s: string, start: nat): (r: Option<nat>)
    requires start <= |s|
    ensures r.Some? ==> start <= r.value < |s| && (s[r.value] == '&' || s[r.value] == '\n')
    ensures r.Some? ==> forall k :: start <= k < r.value ==> s[k] != '&' && s[k] != '\n'
    ensures r.None? ==> forall k :: start <= k < |s| ==> s[k] != '&' && s[k] != '\n'
    decreases |s| - start
  {
    if start == |s| then None
    else if s[start] == '&' || s[start] == '\n' then Some(start)
    else LazyEnd(s, start + 1)
  }

  /** A match at a `q=` at `p` ends where the lazy group stops, and only when that is an `&`. */
  lemma MatchAtLazyEnd(href: string, p: nat)
    requires p + 2 <= |href| && href[p] == 'q' && href[p + 1] == '='
    ensures forall q: nat :: MatchAt(href, p, q) <==> LazyEnd(href, p + 2) == Some(q) && href[q] == '&'
  {
  }

  /**
   * The search from `start` on, trying each start position in turn as the regex
   * engine does: the group of the first position where a match succeeds.
   */
  function RedirectFrom(href: string, start: nat): Option<string>
    requires start <= |href|
    decreases |href| - start
  {
    if start + 2 > |href| then None
    else if href[start] == 'q' && href[start + 1] == '=' then
      var e := LazyEnd(href, start + 2);
      if e.Some? && href[e.value] == '&' then Some(href[start + 2..e.value])
      else RedirectFrom(href, start + 1)
    else RedirectFrom(href, start + 1)
  }

  /** The search from `start` finds the group of the leftmost match at or after `start`, and None when there is none. */
  lemma {:induction false} RedirectFromSpec(href: string, start: nat)
    requires start <= |href|
    ensures var target := RedirectFrom(href, start);
      target.Some? ==>
        exists p: nat, q: nat :: start <= p && MatchAt(href, p, q) && target.value == href[p + 2..q]
          && forall k: nat, q': nat :: start <= k < p ==> !MatchAt(href, k, q')
    ensures RedirectFrom(href, start).None? ==> forall p: nat, q: nat :: start <= p ==> !MatchAt(href, p, q)
    decreases |href| - start
  {
    if start + 2 <= |href| {
      var here := href[start] == 'q' && href[start + 1] == '=';
      if here {
        MatchAtLazyEnd(href, start);
      }
      var e := LazyEnd(href, start + 2);
      if here && e.Some? && href[e.value] == '&' {
        assert MatchAt(href, start, e.value);
      } else {
        assert forall q': nat :: !MatchAt(href, start, q');
        assert RedirectFrom(href, start) == RedirectFrom(href, start + 1);
        RedirectFromSpec(href, start + 1);
        var target := RedirectFrom(href, start + 1);
        if target.Some? {
          var p: nat, q: nat :| start + 1 <= p && MatchAt(href, p, q) && target.value == href[p + 2..q]
            && forall k: nat, q': nat :: start + 1 <= k < p ==> !MatchAt(href, k, q');
          forall k: nat, q': nat | start <= k < p ensures !MatchAt(href, k, q') {
            if k > start {
              assert start + 1 <= k < p;
            }
          }
        } else {
          forall k: nat, q': nat | start <= k ensures !MatchAt(href, k, q') {
            if k > start {
              assert start + 1 <= k;
            }
          }
        }
      }
    }
  }

  /**
   * The group of `re.search(r'q=(?P<url>(.*?))&', href)`: for the leftmost `q=`
   * whose following text reaches an `&` before any newline, the text up to that `&`.
   */
  function RedirectTarget(href: string): (target: Option<string>)
    ensures target.None? <==> forall p: nat, q: nat :: !MatchAt(href, p, q)
    ensures target.Some? ==>
      exists p: nat, q: nat :: MatchAt(href, p, q) && target.value == href[p + 2..q]
        && forall k: nat, q': nat :: k < p ==> !MatchAt(href, k, q')
    ensures target.Some? ==> forall i :: 0 <= i < |target.value| ==> target.value[i] != '&' && target.value[i] != '\n'
  {
    RedirectFromSpec(href, 0);
    RedirectFrom(href, 0)
  }

  /** A newline between `q=` and `&` stops the match: this href is not unwrapped. */
  lemma NewlineStopsRedirect()
    ensures RedirectTarget("/url?q=a\nb&x") == None
    ensures Unwrap("/url?q=a\nb&x") == NoUrl
  {
    var h := "/url?q=a\nb&x";
    assert h[5] == 'q' && h[6] == '=' && h[7] == 'a' && h[8] == '\n';
    assert LazyEnd(h, 7) == Some(8);
    MatchAtLazyEnd(h, 5);
    forall p: nat, q: nat | p != 5 ensures !MatchAt(h, p, q) {
    }
  }

  /** A `q=` whose group would cross a newline is passed over for a later one. */
  lemma RedirectSkipsBrokenMatch()
    ensures RedirectTarget("/url?q=a\nq=b&") == Some("b")
    ensures Unwrap("/url?q=a\nq=b&") == "b"
  {
    var h := "/url?q=a\nq=b&";
    assert h[5] == 'q' && h[6] == '=' && h[7] == 'a' && h[8] == '\n' && h[9] == 'q' && h[10] == '=' && h[11] == 'b' && h[12] == '&';
    assert LazyEnd(h, 7) == Some(8);
    MatchAtLazyEnd(h, 5);
    assert LazyEnd(h, 11) == Some(12);
    assert MatchAt(h, 9, 12);
    assert h[11..12] == "b";
    forall p: nat, q: nat | p < 9 && p != 5 ensures !MatchAt(h, p, q) {
    }
  }

  /** The URL of a candidate: Google's `/url?` redirect links are unwrapped, `#` when that fails. */
  function Unwrap(href: string): (url: string)
    ensures !StartsWith(href, RedirectPrefix) ==> url == href
    ensures StartsWith(href, RedirectPrefix) ==> url == RedirectTarget(href).GetOr(NoUrl)
  {
    if StartsWith(href, RedirectPrefix) then RedirectTarget(href).GetOr(NoUrl) else href
  }

  /** A page that may be kept: status 200 and no bot-challenge text. */
  predicate PageAccepted(page: PageResponse): (accepted: bool)
    ensures accepted <==>
      && page.PageStatus? && page.status == 200
      && forall k: nat :: !Occurs(page.text, JustAMoment, k) && !Occurs(page.text, CheckingBrowser, k)
  {
    && page.PageStatus?
    && page.status == 200
    && !Contains(page.text, JustAMoment)
    && !Contains(page.text, CheckingBrowser)
  }

  /**
   * One pass of the loop body for `result`: the article it contributes, `None`
   * when it is skipped, or the KeyError of an anchor without `href`.
   */
  function Visit(result: SearchResult, web: Web): (v: Result<Option<Article>>)
    ensures v.Raised? <==> result.link == LinkWithoutHref
    ensures v.Ok? ==>
      var url := Unwrap(RawHref(result).value);
      (v.value.Some? <==> IsValidUrl(url, web) && PageAccepted(web.get(url)))
    ensures v.Ok? && v.value.Some? ==>
      var a := v.value.value;
      && IsFetched(a)
      && a.title == TitleOf(result)
      && a.url == Unwrap(RawHref(result).value)
      && web.get(a.url) == PageStatus(200, a.content)
    ensures v.Ok? && v.value.Some? ==>
      && (result.titleText.None? ==> v.value.value.title == NoTitle)
      && (result.link == NoLink ==> v.value.value.url == NoUrl)
  {
    match RawHref(result)
    case Raised(e) => Raised(e)
    case Ok(raw) =>
      var url := Unwrap(raw);
      if !IsValidUrl(url, web) then Ok(None)
      else
        match web.get(url)
        case PageRaised => Ok(None)
        case PageStatus(status, text) =>
          if status != 200 || Contains(text, JustAMoment) || Contains(text, CheckingBrowser) then Ok(None)
          else Ok(Some(Fetched(TitleOf(result), url, text)))
  }

  /**
   * The loop from the point where `acc` has been collected and `results` remain:
   * stop once `maxArticles` are collected, otherwise visit the next result.
   */
  function Select(results: seq<SearchResult>, maxArticles: int, acc: seq<Article>, web: Web): (r: Result<seq<Article>>)
    ensures r.Raised? ==> exists j :: 0 <= j < |results| && results[j].link == LinkWithoutHref
    decreases |results|
  {
    if results == [] then Ok(acc)
    else if |acc| >= maxArticles then Ok(acc)
    else
      match Visit(results[0], web)
      case Raised(e) => Raised(e)
      case Ok(None) => Select(results[1..], maxArticles, acc, web)
      case Ok(Some(a)) => Select(results[1..], maxArticles, acc + [a], web)
  }

  /** `get_google_news(company_name)` with `MAX_ARTICLES` = `maxArticles`. */
  function FetchNews(companyName: string, maxArticles: int, web: Web): (r: Result<seq<Article>>)
    ensures web.search(SearchUrl(companyName)).SearchRaised? ==> r.Raised?
    ensures web.search(SearchUrl(companyName)).SearchPage? && web.search(SearchUrl(companyName)).status != 200
      ==> r == Ok([])
  {
    match web.search(SearchUrl(companyName))
    case SearchRaised => Raised(RequestError("search"))
    case SearchPage(status, results) =>
      if status != 200 then Ok([]) else Select(results, maxArticles, [], web)
  }

  // ---------------------------------------------------------------------------
  // Properties of the selection

  function Max(a: int, b: int): int {
    if a < b then b else a
  }

  /** `items` are the articles of some of the `results`, each visited and kept, in their order. */
  ghost predicate PickedInOrder(items: seq<Article>, results: seq<SearchResult>, web: Web)
    decreases |results|
  {
    if items == [] then true
    else if results == [] then false
    else
      || (Visit(results[0], web) == Ok(Some(items[0])) && PickedInOrder(items[1..], results[1..], web))
      || PickedInOrder(items, results[1..], web)
  }

  /** Every picked article is the one a visit of some result keeps. */
  lemma {:induction false} PickedAreKept(items: seq<Article>, results: seq<SearchResult>, web: Web)
    requires PickedInOrder(items, results, web)
    ensures forall k :: 0 <= k < |items| ==>
      exists j :: 0 <= j < |results| && Visit(results[j], web) == Ok(Some(items[k]))
    decreases |results|
  {
    if items != [] {
      if Visit(results[0], web) == Ok(Some(items[0])) && PickedInOrder(items[1..], results[1..], web) {
        PickedAreKept(items[1..], results[1..], web);
        forall k | 0 <= k < |items|
          ensures exists j :: 0 <= j < |results| && Visit(results[j], web) == Ok(Some(items[k]))
        {
          if k == 0 {
            assert Visit(results[0], web) == Ok(Some(items[k]));
          } else {
            var j :| 0 <= j < |results[1..]| && Visit(results[1..][j], web) == Ok(Some(items[1..][k - 1]));
            assert Visit(results[j + 1], web) == Ok(Some(items[k]));
          }
        }
      } else {
        PickedAreKept(items, results[1..], web);
        forall k | 0 <= k < |items|
          ensures exists j :: 0 <= j < |results| && Visit(results[j], web) == Ok(Some(items[k]))
        {
          var j :| 0 <= j < |results[1..]| && Visit(results[1..][j], web) == Ok(Some(items[k]));
          assert Visit(results[j + 1], web) == Ok(Some(items[k]));
        }
      }
    }
  }

  lemma {:induction false} PickedInOrderOfMore(items: seq<Article>, results: seq<SearchResult>, web: Web)
    requires results != [] && PickedInOrder(items, results[1..], web)
    ensures PickedInOrder(items, results, web)
  {
  }

  /**
   * The selection keeps what it has collected, never goes past the cap (unless it
   * started past it), and adds only kept articles of the results, in order.
   */
  lemma {:induction false} SelectShape(results: seq<SearchResult>, maxArticles: int, acc: seq<Article>, web: Web)
    requires Select(results, maxArticles, acc, web).Ok?
    ensures var out := Select(results, maxArticles, acc, web).value;
      && |acc| <= |out|
      && out[..|acc|] == acc
      && |out| <= Max(|acc|, maxArticles)
      && PickedInOrder(out[|acc|..], results, web)
    decreases |results|
  {
    var out := Select(results, maxArticles, acc, web).value;
    if results == [] || |acc| >= maxArticles {
      assert out == acc;
      assert out[|acc|..] == [];
    } else {
      match Visit(results[0], web)
      case Ok(None) =>
        assert Select(results, maxArticles, acc, web) == Select(results[1..], maxArticles, acc, web);
        SelectShape(results[1..], maxArticles, acc, web);
        PickedInOrderOfMore(out[|acc|..], results, web);
      case Ok(Some(a)) =>
        var acc' := acc + [a];
        assert Select(results, maxArticles, acc, web) == Select(results[1..], maxArticles, acc', web);
        SelectShape(results[1..], maxArticles, acc', web);
        assert out[..|acc'|] == acc';
        assert out[..|acc|] == acc by {
          assert out[..|acc|] == out[..|acc'|][..|acc|];
        }
        var picked := out[|acc|..];
        assert picked[0] == a;
        assert picked[1..] == out[|acc'|..];
        assert Visit(results[0], web) == Ok(Some(picked[0])) && PickedInOrder(picked[1..], results[1..], web);
    }
  }

  /** The fetched list is capped at `maxArticles` and is a selection of the results, in order. */
  lemma FetchNewsShape(companyName: string, maxArticles: int, web: Web)
    requires FetchNews(companyName, maxArticles, web).Ok?
    ensures |FetchNews(companyName, maxArticles, web).value| <= Max(0, maxArticles)
    ensures web.search(SearchUrl(companyName)).SearchPage? ==>
      PickedInOrder(FetchNews(companyName, maxArticles, web).value, web.search(SearchUrl(companyName)).results, web)
  {
    var response := web.search(SearchUrl(companyName));
    if response.status == 200 {
      SelectShape(response.results, maxArticles, [], web);
      assert FetchNews(companyName, maxArticles, web).value[0..] == FetchNews(companyName, maxArticles, web).value;
    }
  }

  /** Reference definition of selection: the kept articles of all results, in order. */
  function Kept(results: seq<SearchResult>, web: Web): seq<Article>
    decreases |results|
  {
    if results == [] then []
    else
      match Visit(results[0], web)
      case Ok(Some(a)) => [a] + Kept(results[1..], web)
      case _ => Kept(results[1..], web)
  }

  /** The first `n` elements of `xs` (all of them when there are fewer; none when `n` is not positive). */
  function Prefix<T>(xs: seq<T>, n: int): seq<T> {
    if n <= 0 then [] else if |xs| <= n then xs else xs[..n]
  }

  lemma PrefixCons<T>(x: T, xs: seq<T>, n: int)
    requires n >= 1
    ensures Prefix([x] + xs, n) == [x] + Prefix(xs, n - 1)
  {
    if |xs| + 1 > n {
      assert ([x] + xs)[..n] == [x] + xs[..n - 1];
    }
  }

  /**
   * When no result has an anchor without `href`, the loop returns exactly the
   * first `maxArticles - |acc|` kept articles after `acc`.
   */
  lemma {:induction false} SelectIsCappedFilter(results: seq<SearchResult>, maxArticles: int, acc: seq<Article>, web: Web)
    requires forall j :: 0 <= j < |results| ==> results[j].link != LinkWithoutHref
    ensures Select(results, maxArticles, acc, web) ==
      Ok(acc + Prefix(Kept(results, web), maxArticles - |acc|))
    decreases |results|
  {
    if results == [] {
      assert acc + [] == acc;
    } else if |acc| >= maxArticles {
      assert acc + [] == acc;
    } else {
      assert results[0].link != LinkWithoutHref;
      var rest := Kept(results[1..], web);
      match Visit(results[0], web)
      case Ok(None) =>
        assert Select(results, maxArticles, acc, web) == Select(results[1..], maxArticles, acc, web);
        assert Kept(results, web) == rest;
        SelectIsCappedFilter(results[1..], maxArticles, acc, web);
      case Ok(Some(a)) =>
        assert Select(results, maxArticles, acc, web) == Select(results[1..], maxArticles, acc + [a], web);
        assert Kept(results, web) == [a] + rest;
        SelectIsCappedFilter(results[1..], maxArticles, acc + [a], web);
        PrefixCons(a, rest, maxArticles - |acc|);
        assert acc + [a] + Prefix(rest, maxArticles - |acc| - 1) == acc + ([a] + Prefix(rest, maxArticles - |acc| - 1));
    }
  }

  /** The same for the whole fetch: a 200 search with no `href`-less anchor yields the first `MAX_ARTICLES` kept articles. */
  lemma FetchNewsIsCappedFilter(companyName: string, maxArticles: int, web: Web)
    requires web.search(SearchUrl(companyName)).SearchPage?
    requires web.search(SearchUrl(companyName)).status == 200
    requires var results := web.search(SearchUrl(companyName)).results;
      forall j :: 0 <= j < |results| ==> results[j].link != LinkWithoutHref
    ensures FetchNews(companyName, maxArticles, web) ==
      Ok(Prefix(Kept(web.search(SearchUrl(companyName)).results, web), maxArticles))
  {
    var kept := Kept(web.search(SearchUrl(companyName)).results, web);
    SelectIsCappedFilter(web.search(SearchUrl(companyName)).results, maxArticles, [], web);
    assert [] + Prefix(kept, maxArticles) == Prefix(kept, maxArticles);
  }

  // ---------------------------------------------------------------------------
  // The loop itself

  /** `get_google_news(company_name)`, step by step as the source runs it. */
  method GetGoogleNews(companyName: string, maxArticles: int, web: Web) returns (r: Result<seq<Article>>)
    ensures r == FetchNews(companyName, maxArticles, web)
    ensures r.Ok? ==> |r.value| <= Max(0, maxArticles)
    ensures r.Ok? ==> forall k :: 0 <= k < |r.value| ==> IsFetched(r.value[k])
    ensures r.Ok? && r.value != [] ==>
      && web.search(SearchUrl(companyName)).SearchPage?
      && var results := web.search(SearchUrl(companyName)).results;
         forall k :: 0 <= k < |r.value| ==>
           exists j :: 0 <= j < |results| && Visit(results[j], web) == Ok(Some(r.value[k]))
  {
    var searchUrl := SearchUrl(companyName);
    var response := web.search(searchUrl);
    if response.SearchRaised? {
      return Raised(RequestError("search"));
    }
    if response.status != 200 {
      return Ok([]);
    }
    var results := response.results;
    var articles: seq<Article> := [];
    var i := 0;
    while i < |results|
      invariant 0 <= i <= |results|
      invariant Select(results, maxArticles, [], web) == Select(results[i..], maxArticles, articles, web)
    {
      if |articles| >= maxArticles {
        break;
      }
      var result := results[i];
      assert results[i..][1..] == results[i + 1..];
      i := i + 1;

      var title := if result.titleText.Some? then result.titleText.value else NoTitle;
      var url: string;
      match result.link {
        case NoLink => url := NoUrl;
        case LinkWithoutHref => return Raised(KeyError("href"));
        case Href(h) => url := h;
      }
      if StartsWith(url, RedirectPrefix) {
        var m := RedirectTarget(url);
        url := if m.Some? then m.value else NoUrl;
      }

      if !IsValidUrl(url, web) {
        continue;
      }
      var page := web.get(url);
      if page.PageRaised? {
        continue;
      }
      if page.status != 200 {
        continue;
      }
      var content := page.text;
      if Contains(content, JustAMoment) || Contains(content, CheckingBrowser) {
        continue;
      }
      articles := articles + [Fetched(title, url, content)];
    }
    r := Ok(articles);
    FetchNewsShape(companyName, maxArticles, web);
    if r.value != [] {
      PickedAreKept(r.value, results, web);
    }
  }
}
