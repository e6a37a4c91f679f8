/**
 * The row derivations of the transform job: each source's raw records become
 * a deduplicated dimension projection and a one-row-per-record fact
 * projection, joined by a surrogate key that both compute with the same
 * expression, and by a yyyyMMdd date key into the date dimension.
 */
module SocialMediaEtl {
  import opened Options
  import opened Text
  import opened Calendar
  import DateDimension

  // ----- Column types and shared expressions -----

  type Int32 = x: int | -0x8000_0000 <= x < 0x8000_0000

  /** A timestamp value of a Spark column, already decomposed in UTC. */
  type Timestamp = t: DateTime | ValidDateTime(t) witness DateTime(Date(1970, 1, 1), 0, 0, 0)

  /**
   * Spark's F.hash (Murmur3) applied to one string column; null has a hash
   * too. It is a library function, so the model takes it as a parameter.
   */
  type StringHash = Option<string> -> Int32

  /** F.abs on an int column: Java's Math.abs, which wraps -2^31 to itself. */
  function Abs32(x: Int32): (r: Int32)
    ensures x != -0x8000_0000 ==> r >= 0 && (r == x || r == -x)
    ensures x == -0x8000_0000 ==> r == x
  {
    if x == -0x8000_0000 then x else if x < 0 then -x else x
  }

  /** F.abs(F.hash(column)): the surrogate key of a natural key. */
  function SurrogateKey(hash: StringHash, naturalKey: Option<string>): Int32 {
    Abs32(hash(naturalKey))
  }

  /** F.concat of two string columns: null as soon as either is null. */
  function ConcatColumns(a: Option<string>, b: Option<string>): (r: Option<string>)
    ensures r.Some? <==> a.Some? && b.Some?
    ensures r.Some? ==> |r.value| == |a.value| + |b.value|
    ensures r.Some? ==> r.value[..|a.value|] == a.value && r.value[|a.value|..] == b.value
  {
    if a.Some? && b.Some? then Some(a.value + b.value) else None
  }

  /** date_format(ts, "yyyyMMdd") cast to int; null stays null. */
  function FactDateKey(t: Option<Timestamp>): Option<int> {
    match t
    case None => None
    case Some(ts) => Some(DateKey(ts.date))
  }

  /** A fact's date key, when its date lies in the dimension's range, names a date-dimension row. */
  lemma FactDateKeyJoins(ts: Timestamp)
    requires !Before(ts.date, DateDimension.StartDate) && !Before(DateDimension.EndDate, ts.date)
    ensures exists i :: (0 <= i < |DateDimension.CreateDateDimension()|
      && Some(DateDimension.CreateDateDimension()[i].dateKey) == FactDateKey(Some(ts)))
  {
    DateDimension.DimensionComplete(ts.date);
  }

  // ----- DataFrame.distinct -----

  predicate NoDuplicates<T(==)>(s: seq<T>) {
    forall i, j :: 0 <= i < j < |s| ==> s[i] != s[j]
  }

  /**
   * DataFrame.distinct: one copy of each row, collapsing only rows equal in
   * every column. Spark promises no order; this keeps last occurrences.
   */
  function Distinct<T(==)>(s: seq<T>): (r: seq<T>)
    ensures NoDuplicates(r)
    ensures forall i :: 0 <= i < |s| ==> s[i] in r
    ensures forall i :: 0 <= i < |r| ==> r[i] in s
    ensures |r| <= |s|
  {
    if s == [] then []
    else if s[0] in s[1..] then Distinct(s[1..])
    else [s[0]] + Distinct(s[1..])
  }

  /**
   * Nothing collapses when no two rows are equal: every row is kept. The
   * second clause, that the rows also keep their order, holds for the
   * model's keep-last order only; Spark's distinct may reorder them.
   */
  lemma {:induction false} DistinctOfDistinctRows<T>(s: seq<T>)
    requires NoDuplicates(s)
    ensures |Distinct(s)| == |s|
    ensures Distinct(s) == s
  {
    if s != [] {
      assert s[0] !in s[1..] by {
        forall j | 0 <= j < |s[1..]| ensures s[1..][j] != s[0] {
          assert s[1..][j] == s[j + 1];
        }
      }
      assert NoDuplicates(s[1..]) by {
        forall i, j | 0 <= i < j < |s[1..]| ensures s[1..][i] != s[1..][j] {
          assert s[1..][i] == s[i + 1] && s[1..][j] == s[j + 1];
        }
      }
      DistinctOfDistinctRows(s[1..]);
    }
  }

  /** Something collapses exactly when two rows are equal. */
  lemma {:induction false} DistinctShrinks<T>(s: seq<T>, i: int, j: int)
    requires 0 <= i < j < |s| && s[i] == s[j]
    ensures |Distinct(s)| < |s|
  {
    if i == 0 {
      assert s[0] in s[1..] by { assert s[1..][j - 1] == s[j]; }
    } else {
      assert s[1..][i - 1] == s[i] && s[1..][j - 1] == s[j];
      DistinctShrinks(s[1..], i - 1, j - 1);
    }
  }

  /** The shape of every source's result: a dimension projection and a fact projection. */
  datatype Projection<D, F> = Projection(dimension: seq<D>, fact: seq<F>)

  // ----- Reddit: content dimension and engagement fact -----

  /** A row of the raw reddit table. */
  datatype RedditRecord = RedditRecord(
    postId: Option<string>,
    title: Option<string>,
    author: Option<string>,
    subreddit: Option<string>,
    score: Option<int>,
    numComments: Option<int>,
    upvoteRatio: Option<real>,
    createdUtc: Option<Timestamp>)

  datatype ContentRow = ContentRow(
    contentKey: Int32,
    postId: Option<string>,
    title: Option<string>,
    subreddit: Option<string>,
    author: Option<string>,
    contentType: string,
    createdAt: Option<Timestamp>)

  datatype EngagementRow = EngagementRow(
    contentKey: Int32,
    dateKey: Option<int>,
    upvotes: Option<int>,
    commentsCount: Option<int>,
    upvoteRatio: Option<real>)

  function ContentRowOf(hash: StringHash, r: RedditRecord): ContentRow {
    ContentRow(SurrogateKey(hash, r.postId), r.postId, r.title, r.subreddit, r.author,
               "reddit_post", r.createdUtc)
  }

  function EngagementRowOf(hash: StringHash, r: RedditRecord): EngagementRow {
    EngagementRow(SurrogateKey(hash, r.postId), FactDateKey(r.createdUtc), r.score, r.numComments,
                  r.upvoteRatio)
  }

  /** process_reddit_data. */
  function ProcessReddit(hash: StringHash, records: seq<RedditRecord>): Projection<ContentRow, EngagementRow> {
    Projection(
      Distinct(seq(|records|, i requires 0 <= i < |records| => ContentRowOf(hash, records[i]))),
      seq(|records|, i requires 0 <= i < |records| => EngagementRowOf(hash, records[i])))
  }

  /** One engagement row per record, in order, passing the measures through. */
  lemma RedditFacts(hash: StringHash, records: seq<RedditRecord>)
    ensures var facts := ProcessReddit(hash, records).fact;
      |facts| == |records|
      && forall i :: 0 <= i < |records| ==>
           && facts[i].upvotes == records[i].score
           && facts[i].commentsCount == records[i].numComments
           && facts[i].upvoteRatio == records[i].upvoteRatio
           && facts[i].dateKey == FactDateKey(records[i].createdUtc)
  {
  }

  /**
   * Each engagement row's key is the key of its record's content row, which
   * the dimension holds; records with equal post ids share a key.
   */
  lemma RedditKeysJoin(hash: StringHash, records: seq<RedditRecord>, i: int, j: int)
    requires 0 <= i < |records| && 0 <= j < |records|
    ensures var p := ProcessReddit(hash, records);
      && ContentRowOf(hash, records[i]) in p.dimension
      && ContentRowOf(hash, records[i]).contentKey == p.fact[i].contentKey
      && ContentRowOf(hash, records[i]).postId == records[i].postId
      && (records[i].postId == records[j].postId ==> p.fact[i].contentKey == p.fact[j].contentKey)
  {
    var rows := seq(|records|, k requires 0 <= k < |records| => ContentRowOf(hash, records[k]));
    assert rows[i] in rows;
  }

  /** The content dimension: duplicate-free, only records' rows, all of type "reddit_post". */
  lemma RedditDimension(hash: StringHash, records: seq<RedditRecord>)
    ensures var dim := ProcessReddit(hash, records).dimension;
      && NoDuplicates(dim)
      && (forall c :: c in dim ==> c.contentType == "reddit_post")
      && (forall c :: c in dim ==> exists i :: 0 <= i < |records| && c == ContentRowOf(hash, records[i]))
  {
  }

  // ----- News: news dimension and news fact -----

  /** A row of the raw news table. */
  datatype NewsRecord = NewsRecord(
    title: Option<string>,
    description: Option<string>,
    sourceName: Option<string>,
    author: Option<string>,
    category: Option<string>,
    country: Option<string>,
    publishedAt: Option<Timestamp>)

  datatype NewsRow = NewsRow(
    articleKey: Int32,
    title: Option<string>,
    description: Option<string>,
    sourceName: Option<string>,
    author: Option<string>,
    category: Option<string>,
    country: Option<string>,
    publishedAt: Option<Timestamp>)

  datatype NewsFactRow = NewsFactRow(
    articleKey: Int32,
    dateKey: Option<int>,
    descriptionLength: Option<int>,
    sentimentScore: int)

  /** The article's natural key: title followed by source name. */
  function ArticleKey(hash: StringHash, r: NewsRecord): Int32 {
    SurrogateKey(hash, ConcatColumns(r.title, r.sourceName))
  }

  /**
   * The keyword heuristic: "positive" is checked first, then "negative"; a
   * null description makes both tests null, which `when` treats as false.
   */
  function Sentiment(description: Option<string>): int {
    match description
    case None => 0
    case Some(d) =>
      if Contains(d, "positive") then 1
      else if Contains(d, "negative") then -1
      else 0
  }

  /** F.length of a string column: its number of characters, null for null. */
  function Length(s: Option<string>): Option<int> {
    match s
    case None => None
    case Some(v) => Some(|v|)
  }

  function NewsRowOf(hash: StringHash, r: NewsRecord): NewsRow {
    NewsRow(ArticleKey(hash, r), r.title, r.description, r.sourceName, r.author, r.category,
            r.country, r.publishedAt)
  }

  function NewsFactRowOf(hash: StringHash, r: NewsRecord): NewsFactRow {
    NewsFactRow(ArticleKey(hash, r), FactDateKey(r.publishedAt), Length(r.description),
                Sentiment(r.description))
  }

  /** process_news_data. */
  function ProcessNews(hash: StringHash, records: seq<NewsRecord>): Projection<NewsRow, NewsFactRow> {
    Projection(
      Distinct(seq(|records|, i requires 0 <= i < |records| => NewsRowOf(hash, records[i]))),
      seq(|records|, i requires 0 <= i < |records| => NewsFactRowOf(hash, records[i])))
  }

  /**
   * The sentiment score, case by case, against the positional meaning of
   * "contains": +1 when "positive" occurs; otherwise -1 when "negative"
   * occurs; otherwise 0. Matching is case-sensitive.
   */
  lemma SentimentCases(d: string)
    ensures Sentiment(Some(d)) == 1 <==> exists i: nat :: OccursAt(d, "positive", i)
    ensures Sentiment(Some(d)) == -1 <==>
      (!exists i: nat :: OccursAt(d, "positive", i)) && (exists i: nat :: OccursAt(d, "negative", i))
    ensures Sentiment(Some(d)) == 0 <==>
      (!exists i: nat :: OccursAt(d, "positive", i)) && (!exists i: nat :: OccursAt(d, "negative", i))
  {
    ContainsAt(d, "positive");
    ContainsAt(d, "negative");
  }

  /** Only the lower-case keyword counts. */
  lemma SentimentIsCaseSensitive()
    ensures Sentiment(Some("Positive")) == 0
  {
    var s := "Positive";
    TooShortToContain(s[1..], "positive");
    TooShortToContain(s[1..], "negative");
    assert s[..8] != "positive" by { assert s[0] != "positive"[0]; }
    assert s[..8] != "negative" by { assert s[0] != "negative"[0]; }
  }

  /**
   * One news fact per record, in order, with the description's length and
   * its keyword sentiment (characterised by SentimentCases).
   */
  lemma NewsFacts(hash: StringHash, records: seq<NewsRecord>)
    ensures var facts := ProcessNews(hash, records).fact;
      |facts| == |records|
      && forall i :: 0 <= i < |records| ==>
           && facts[i].dateKey == FactDateKey(records[i].publishedAt)
           && facts[i].sentimentScore == Sentiment(records[i].description)
           && facts[i].descriptionLength == Length(records[i].description)
           && facts[i].sentimentScore in {-1, 0, 1}
           && (records[i].description.Some? ==> facts[i].descriptionLength == Some(|records[i].description.value|))
           && (records[i].description.None? ==> facts[i].descriptionLength.None? && facts[i].sentimentScore == 0)
  {
  }

  /** Each news fact carries the key of its record's dimension row, which the dimension holds. */
  lemma NewsKeysJoin(hash: StringHash, records: seq<NewsRecord>, i: int)
    requires 0 <= i < |records|
    ensures var p := ProcessNews(hash, records);
      && NewsRowOf(hash, records[i]) in p.dimension
      && NewsRowOf(hash, records[i]).articleKey == p.fact[i].articleKey
  {
    var rows := seq(|records|, k requires 0 <= k < |records| => NewsRowOf(hash, records[k]));
    assert rows[i] in rows;
  }

  /**
   * Because concat is null when a part is null, every article without a
   * source name gets the same key, whatever its title.
   */
  lemma NullSourceSharesKey(hash: StringHash, a: NewsRecord, b: NewsRecord)
    requires a.sourceName.None? && b.sourceName.None?
    ensures ArticleKey(hash, a) == ArticleKey(hash, b)
  {
  }

  /** The news dimension is duplicate-free and holds only records' rows. */
  lemma NewsDimension(hash: StringHash, records: seq<NewsRecord>)
    ensures var dim := ProcessNews(hash, records).dimension;
      && NoDuplicates(dim)
      && (forall n :: n in dim ==> exists i :: 0 <= i < |records| && n == NewsRowOf(hash, records[i]))
  {
  }

  // ----- Crypto: crypto dimension and price fact -----

  /** A row of the raw crypto table (its price and volume columns are not modelled). */
  datatype CryptoRecord = CryptoRecord(
    coinId: Option<string>,
    symbol: Option<string>,
    name: Option<string>,
    marketCapRank: Option<int>,
    lastUpdated: Option<Timestamp>)

  datatype CryptoRow = CryptoRow(
    cryptoKey: Int32,
    coinId: Option<string>,
    symbol: Option<string>,
    name: Option<string>,
    marketCapRank: Option<int>)

  datatype CryptoFactRow = CryptoFactRow(cryptoKey: Int32, dateKey: Option<int>)

  function CryptoRowOf(hash: StringHash, r: CryptoRecord): CryptoRow {
    CryptoRow(SurrogateKey(hash, r.coinId), r.coinId, r.symbol, r.name, r.marketCapRank)
  }

  function CryptoFactRowOf(hash: StringHash, r: CryptoRecord): CryptoFactRow {
    CryptoFactRow(SurrogateKey(hash, r.coinId), FactDateKey(r.lastUpdated))
  }

  /** process_crypto_data. */
  function ProcessCrypto(hash: StringHash, records: seq<CryptoRecord>): Projection<CryptoRow, CryptoFactRow> {
    Projection(
      Distinct(seq(|records|, i requires 0 <= i < |records| => CryptoRowOf(hash, records[i]))),
      seq(|records|, i requires 0 <= i < |records| => CryptoFactRowOf(hash, records[i])))
  }

  /** One price fact per record, in order, keyed like its record's dimension row. */
  lemma CryptoFacts(hash: StringHash, records: seq<CryptoRecord>, i: int)
    requires 0 <= i < |records|
    ensures var p := ProcessCrypto(hash, records);
      && |p.fact| == |records|
      && p.fact[i].dateKey == FactDateKey(records[i].lastUpdated)
      && CryptoRowOf(hash, records[i]) in p.dimension
      && CryptoRowOf(hash, records[i]).cryptoKey == p.fact[i].cryptoKey
  {
    var rows := seq(|records|, k requires 0 <= k < |records| => CryptoRowOf(hash, records[k]));
    assert rows[i] in rows;
  }

  /** Records with pairwise distinct coin ids give one dimension row each. */
  lemma DistinctCoinsKeepAllRows(hash: StringHash, records: seq<CryptoRecord>)
    requires forall i, j :: 0 <= i < j < |records| ==> records[i].coinId != records[j].coinId
    ensures |ProcessCrypto(hash, records).dimension| == |records|
  {
    var rows := seq(|records|, k requires 0 <= k < |records| => CryptoRowOf(hash, records[k]));
    assert NoDuplicates(rows) by {
      forall i, j | 0 <= i < j < |rows| ensures rows[i] != rows[j] {
        assert rows[i].coinId == records[i].coinId && rows[j].coinId == records[j].coinId;
      }
    }
    DistinctOfDistinctRows(rows);
  }

  /**
   * Two snapshots of a coin that agree on the dimension's columns collapse
   * into one dimension row, even when their last_updated differs, while
   * both keep their price fact.
   */
  lemma RepeatedCoinCollapses(hash: StringHash, records: seq<CryptoRecord>, i: int, j: int)
    requires 0 <= i < j < |records| && CryptoRowOf(hash, records[i]) == CryptoRowOf(hash, records[j])
    ensures |ProcessCrypto(hash, records).dimension| < |records|
    ensures |ProcessCrypto(hash, records).fact| == |records|
    ensures ProcessCrypto(hash, records).fact[i].dateKey == FactDateKey(records[i].lastUpdated)
    ensures ProcessCrypto(hash, records).fact[j].dateKey == FactDateKey(records[j].lastUpdated)
  {
    var rows := seq(|records|, k requires 0 <= k < |records| => CryptoRowOf(hash, records[k]));
    DistinctShrinks(rows, i, j);
  }
}
