/**
 * The news extractor: with an API key, it reads the US top headlines of
 * three categories in a fixed order, flattens each article into a record
 * tagged with its category, and stores all records as one JSON file.
 */
module NewsExtractor {
  import opened Options
  import opened Calendar
  import opened Json
  import opened Extraction

  const Categories := ["technology", "business", "science"]
  const Country := "us"
  const KeyPrefix := "raw-data/news/news_articles_"
  const ApiKeyMessage := "NEWS_API_KEY environment variable not set"

  /** One flattened article; the category is the request's, not the API's. */
  datatype NewsArticle = NewsArticle(
    title: Json,
    description: Json,
    sourceName: Json,
    author: Json,
    publishedAt: Json,
    url: Json,
    category: string,
    country: string,
    extractionDate: string)

  /**
   * The record for one article, or None when building it raises: the
   * article is not an object, or its "source" is present but not an object
   * (a null source included), so that `.get('name')` on it raises.
   */
  function NormalizeArticle(article: Json, category: string, now: string): Option<NewsArticle> {
    if !article.JObject? then None
    else
      var a := article.fields;
      var source := GetOr(a, "source", JObject(map[]));
      if !source.JObject? then None
      else
        Some(NewsArticle(
          title := Get(a, "title"),
          description := Get(a, "description"),
          sourceName := Get(source.fields, "name"),
          author := Get(a, "author"),
          publishedAt := Get(a, "publishedAt"),
          url := Get(a, "url"),
          category := category,
          country := Country,
          extractionDate := now))
  }

  function ArticleNormalizer(category: string, now: string): Json -> Option<NewsArticle> {
    article => NormalizeArticle(article, category, now)
  }

  /**
   * data.get('articles', []) when it is a list; an absent key gives the
   * empty list. Any other shape appends nothing: `.get` on a body that is
   * not an object raises, a null or a number is not iterable, and iterating
   * a dict or a string yields strings, whose `.get` raises.
   */
  function Articles(body: Json): seq<Json> {
    if body.JObject? && "articles" in body.fields && body.fields["articles"].JArray?
    then body.fields["articles"].items
    else []
  }

  /** What one category's try block leaves appended to all_articles. */
  function CategoryArticles(outcome: FetchOutcome, category: string, now: string): seq<NewsArticle> {
    match outcome
    case FetchFailed(_) => []
    case Fetched(body) => MappedPrefix(ArticleNormalizer(category, now), Articles(body))
  }

  /** One headlines request per category, in order. */
  function Headlines(cs: seq<string>): seq<Call> {
    seq(|cs|, k requires 0 <= k < |cs| => HeadlinesGet(cs[k]))
  }

  lemma HeadlinesTake(cs: seq<string>, i: int)
    requires 0 <= i < |cs|
    ensures Headlines(cs[..i + 1]) == Headlines(cs[..i]) + [HeadlinesGet(cs[i])]
  {
  }

  /** The body of the loop over categories, as a function of the category's name. */
  function ArticlesFrom(fetch: string -> FetchOutcome, now: string): string -> seq<NewsArticle> {
    category => CategoryArticles(fetch(category), category, now)
  }

  /** The three categories' articles, in the fixed order. */
  lemma ArticlesOfCategories(fetch: string -> FetchOutcome, now: string)
    ensures Concat(ArticlesFrom(fetch, now), Categories)
      == CategoryArticles(fetch("technology"), "technology", now)
         + CategoryArticles(fetch("business"), "business", now)
         + CategoryArticles(fetch("science"), "science", now)
  {
    ConcatThree(ArticlesFrom(fetch, now), Categories);
  }

  /** The requests go out for technology, business and science, in that order. */
  lemma CategoryOrder()
    ensures Headlines(Categories) == [HeadlinesGet("technology"), HeadlinesGet("business"), HeadlinesGet("science")]
  {
  }

  /**
   * What a category contributes: nothing when its fetch fails, otherwise
   * the records of its articles up to, not including, the first one whose
   * record cannot be built, each tagged with that category.
   */
  lemma CategoryContribution(outcome: FetchOutcome, category: string, now: string)
    ensures outcome.FetchFailed? ==> CategoryArticles(outcome, category, now) == []
    ensures outcome.Fetched? ==>
      var items, records := Articles(outcome.body), CategoryArticles(outcome, category, now);
      && |records| <= |items|
      && (forall k :: 0 <= k < |records| ==> NormalizeArticle(items[k], category, now) == Some(records[k]))
      && (|records| < |items| ==> NormalizeArticle(items[|records|], category, now).None?)
      && (forall k :: 0 <= k < |records| ==> records[k].category == category && records[k].country == Country)
  {
    if outcome.Fetched? {
      MappedPrefixSpec(ArticleNormalizer(category, now), Articles(outcome.body));
    }
  }

  /**
   * A response that yields no articles contributes no records: a missing
   * "articles" key gives the empty list, and a body that is not an object
   * makes `.get` raise, so the category is skipped.
   */
  lemma NoArticlesNoRecords(body: Json, category: string, now: string)
    requires !body.JObject? || "articles" !in body.fields
    ensures CategoryArticles(Fetched(body), category, now) == []
  {
  }

  /** Every extracted article carries one of the requested categories. */
  lemma ArticlesTagged(cs: seq<string>, fetch: string -> FetchOutcome, now: string, a: NewsArticle)
    requires a in Concat(ArticlesFrom(fetch, now), cs)
    ensures a.category in cs && a.country == Country
  {
    ConcatOrigin(ArticlesFrom(fetch, now), cs, a);
    var i :| 0 <= i < |cs| && a in ArticlesFrom(fetch, now)(cs[i]);
    CategoryContribution(fetch(cs[i]), cs[i], now);
    var records := CategoryArticles(fetch(cs[i]), cs[i], now);
    var k :| 0 <= k < |records| && records[k] == a;
  }

  /**
   * The field mapping of an article object: every field copied under its
   * new name, None for an absent one; source_name is the source's name
   * when the source is an object, None when it is absent or has no name;
   * a source that is present but not an object (null included) raises.
   * The category and country "us" come from the request.
   */
  lemma ArticleFields(a: map<string, Json>, category: string, now: string)
    ensures NormalizeArticle(JObject(a), category, now).None? <==> "source" in a && !a["source"].JObject?
    ensures NormalizeArticle(JObject(a), category, now).Some? ==>
      var r := NormalizeArticle(JObject(a), category, now).value;
      && r.title == (if "title" in a then a["title"] else JNull)
      && r.description == (if "description" in a then a["description"] else JNull)
      && r.sourceName ==
           (if "source" in a && "name" in a["source"].fields then a["source"].fields["name"] else JNull)
      && r.author == (if "author" in a then a["author"] else JNull)
      && r.publishedAt == (if "publishedAt" in a then a["publishedAt"] else JNull)
      && r.url == (if "url" in a then a["url"] else JNull)
      && r.category == category
      && r.country == "us"
      && r.extractionDate == now
  {
  }

  /** An article that is not an object raises. */
  lemma NonObjectArticleRaises(article: Json, category: string, now: string)
    requires !article.JObject?
    ensures NormalizeArticle(article, category, now).None?
  {
  }

  /**
   * The try block for one category: after the fetch, the inner loop over
   * its articles, which stops at the first one that raises.
   */
  method AppendArticles(outcome: FetchOutcome, category: string, now: string) returns (added: seq<NewsArticle>)
    ensures added == CategoryArticles(outcome, category, now)
  {
    added := [];
    if outcome.FetchFailed? {
      return;
    }
    var items := Articles(outcome.body);
    var j := 0;
    while j < |items|
      invariant 0 <= j <= |items|
      invariant |added| == j
      invariant forall k :: 0 <= k < j ==> NormalizeArticle(items[k], category, now) == Some(added[k])
    {
      var article := NormalizeArticle(items[j], category, now);
      if article.None? {
        break;
      }
      added := added + [article.value];
      j := j + 1;
    }
    MappedPrefixUnique(ArticleNormalizer(category, now), items, added);
  }

  /**
   * extract_news_data: for each category in order, fetch its headlines and
   * append its articles; a category whose fetch or mapping raises is
   * skipped from that point on and the loop continues.
   */
  method ExtractNewsData(fetch: string -> FetchOutcome, now: string)
    returns (allArticles: seq<NewsArticle>, calls: seq<Call>)
    ensures allArticles == Concat(ArticlesFrom(fetch, now), Categories)
    ensures calls == Headlines(Categories)
  {
    allArticles, calls := [], [];
    var categories := Categories;
    for i := 0 to |categories|
      invariant allArticles == Concat(ArticlesFrom(fetch, now), categories[..i])
      invariant calls == Headlines(categories[..i])
    {
      var category := categories[i];
      calls := calls + [HeadlinesGet(category)];
      var added := AppendArticles(fetch(category), category, now);
      assert added == ArticlesFrom(fetch, now)(category);
      allArticles := allArticles + added;
      ConcatTake(ArticlesFrom(fetch, now), categories, i);
      HeadlinesTake(categories, i);
    }
    assert categories[..|categories|] == categories;
  }

  /** lambda_handler: the API key first, then the headlines, then the upload. */
  method LambdaHandler(apiKey: Option<string>, fetch: string -> FetchOutcome, clock: DateTime, now: string,
                       putError: Option<string>)
    returns (inv: Invocation<NewsArticle>)
    requires ValidDateTime(clock)
    ensures Missing(apiKey) ==> inv == Invocation(Response(400, Error(Refused(ApiKeyMessage))), [], None)
    ensures !Missing(apiKey) ==>
      Uploaded(inv, Headlines(Categories), RawKey(KeyPrefix, clock), "news articles",
               Concat(ArticlesFrom(fetch, now), Categories), putError)
  {
    if Missing(apiKey) {
      return Invocation(Response(400, Error(Refused(ApiKeyMessage))), [], None);
    }
    var articles, headlineCalls := ExtractNewsData(fetch, now);
    var filename := RawKey(KeyPrefix, clock);
    var calls := headlineCalls + [PutObject(filename)];
    if putError.Some? {
      return Invocation(Response(500, Error(Raised(putError.value))), calls, None);
    }
    inv := Invocation(Response(200, Processed(ProcessedMessage(|articles|, "news articles"), filename)), calls,
                      Some(StoredObject(filename, articles)));
  }
}
