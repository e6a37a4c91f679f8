# Social media data warehouse: a Dafny model of its core

The system collects posts from Reddit, headlines from a news API and market
data from CoinGecko. Three AWS Lambda extractors store the data as raw JSON
files in S3. A Glue job then reshapes that data into a star schema:
- a date dimension;
- a dimension and a fact table for each source;
- surrogate keys, computed by hashing each row's natural key;
- `yyyyMMdd` date keys.

This project models both halves and proves what each promises:

- **Transform job** (`glue/etl-jobs/social_media_etl.py`). This part is pure, so it is modelled as functions over sequences.
  - `CreateDateDimension` builds one row per day of the fixed 2024–2026 range.
  - `ProcessReddit`, `ProcessNews` and `ProcessCrypto` each turn the raw records into a deduplicated dimension and a fact table with one row per record.
- **Extractors** (`lambda/*`).
  - Each handler is a method. The reddit and news handlers first check their credentials; the crypto handler checks none. Every handler then calls the extraction loop, builds the file name and chooses the response.
  - Each extraction loop is a method with a `for` or `while` loop and invariants. Each is proved equal to a specification function of the abstract fetch outcomes.
  - Lemmas prove the properties of those functions: the fixed order, the failure policy and the field mapping.

Modules:

| file | module | contents |
|---|---|---|
| options.dfy | `Options` | `Option`, `Result` |
| text.dfy | `Text` | decimal digits, zero padding, parsing digits back, substring search |
| calendar.dfy | `Calendar` | Gregorian dates, day numbers, day of week, date ranges, `yyyyMMdd` keys, `%Y%m%d_%H%M%S` file timestamps |
| date_dimension.dfy | `DateDimension` | `create_date_dimension` |
| social_media_etl.dfy | `SocialMediaEtl` | surrogate keys, `distinct`, the three `process_*_data` derivations |
| json.dfy | `Json` | parsed JSON values and `dict.get` |
| extraction.dfy | `Extraction` | what the handlers share: fetch outcomes, responses, the call trace, raw-data keys, the two failure policies |
| reddit_extractor.dfy, news_extractor.dfy, crypto_extractor.dfy | `RedditExtractor`, `NewsExtractor`, `CryptoExtractor` | one extractor each |

Things the model takes as inputs, because they are I/O, the clock or foreign code:

- **OAuth token request.** A `TokenOutcome`.
- **Each HTTP GET.** A `FetchOutcome`: either the parsed body or the text of the exception raised by `requests`, `raise_for_status` or `.json()`.
  - Reddit and news receive one outcome per community or category, as a function of its name.
- **`put_object`.** An `Option<string>` holding the text of the exception it raised, if any.
- **`datetime.now()`.**
  - As a decomposed `DateTime` for the file name.
  - As one ISO string `now` for `extraction_date`.
- **Spark's `F.hash`.** A function parameter `StringHash`.

Each handler returns an `Invocation`: the response, the external calls made in order, and the stored object, if any.

The model follows the code in these details:

- **News `published_at` uses two different parse paths.**
  - The news dimension parses it with the pattern `yyyy-MM-dd'T'HH:mm:ss'Z'`.
  - The news fact calls `date_format` on the raw column.

  Both read the column as one already-decomposed timestamp: the dimension keeps it whole, and the fact formats its date.
- **`F.abs(F.hash(..))` can be negative.** `F.abs` is Java's `Math.abs`, so it maps -2^31 to itself (`Abs32`). The surrogate key therefore has no non-negativity guarantee.
- **Null `description` gives sentiment 0.** With a null description both `contains` tests are null, and `when` treats null as false.
- **Malformed listing shapes contribute nothing.**
  - Reddit: a `children` value that is not a list, e.g. a dict or a string.
  - News: an `articles` value that is not a list.

  Python iterates a dict or a string and then fails on the first element's lookup, so such a category or community adds no records. The model gives exactly that, not an error.

## Model

| member | source | states |
|---|---|---|
| Calendar.NextDay | glue/etl-jobs/social_media_etl.py:27 | the day after a valid date is valid (except after 9999-12-31) and comes strictly later |
| Calendar.OrdinalNext | glue/etl-jobs/social_media_etl.py:27 | the next day's day number is one more, across month and year ends and leap days |
| Calendar.OrdinalOrder | glue/etl-jobs/social_media_etl.py:27 | day numbers order valid dates exactly as the calendar does and are equal only for equal dates |
| Calendar.DateRange | glue/etl-jobs/social_media_etl.py:27-28 | for bounds in order (Spark rejects a stop before the start with a positive step), `sequence(start, stop, interval 1 day)` has Ordinal(e)-Ordinal(s)+1 elements |
| Calendar.DateRangeShape | glue/etl-jobs/social_media_etl.py:27-28 | element i of the range is a valid date i days after the start |
| Calendar.DateRangeConsecutive | glue/etl-jobs/social_media_etl.py:27-28 | each element is followed by the next calendar day |
| Calendar.DateRangeComplete | glue/etl-jobs/social_media_etl.py:27-28 | every valid date between start and stop is in the range, at its offset from the start |
| Calendar.DayOfWeek | glue/etl-jobs/social_media_etl.py:37 | `dayofweek` lies in 1..7 |
| Calendar.DayOfWeekNext | glue/etl-jobs/social_media_etl.py:37 | the day of week of the next day is w % 7 + 1 (Saturday=7 wraps to Sunday=1) |
| Calendar.FormatYyyyMMdd | glue/etl-jobs/social_media_etl.py:31 | `date_format(d, "yyyyMMdd")` is eight decimal digits |
| Calendar.DateKeyValue | glue/etl-jobs/social_media_etl.py:31 | the key cast from that string is year*10000 + month*100 + day |
| Calendar.DateKeyRoundTrip | glue/etl-jobs/social_media_etl.py:31 | the date can be read back from its key, and keys lie in 10101..99991231 |
| Calendar.DateKeyOrder | glue/etl-jobs/social_media_etl.py:31 | keys are ordered as dates are, and equal only for equal dates |
| Calendar.FileTimestamp | lambda/reddit-extractor/reddit_data_extractor.py:39 | `strftime('%Y%m%d_%H%M%S')` has the year's digit count plus 11 characters |
| Calendar.FileTimestampWidth | lambda/news-extractor/news_data_extractor.py:32 | from year 1000 on, the timestamp is 15 characters with `_` at index 8 |
| Calendar.FileTimestampRoundTrip | lambda/crypto-extractor/crypto_data_extractor.py:24 | every field of the clock reading can be read back from the timestamp |
| Calendar.FileTimestampInjective | lambda/crypto-extractor/crypto_data_extractor.py:24-25 | different clock readings (to the second) give different timestamps |
| DateDimension.QuarterFormula | glue/etl-jobs/social_media_etl.py:34 | quarter is (month-1)/3+1 and lies in 1..4 |
| DateDimension.RangeBounds | glue/etl-jobs/social_media_etl.py:23-24 | the fixed bounds 2024-01-01 and 2026-12-31 are valid dates, days 738886 and 739981, so they are in order |
| DateDimension.DimensionSize | glue/etl-jobs/social_media_etl.py:23-28 | the dimension has exactly 1096 rows |
| DateDimension.RowDates | glue/etl-jobs/social_media_etl.py:23-32 | row i holds the date i days after 2024-01-01 and lies within 2024-01-01..2026-12-31 |
| DateDimension.DimensionComplete | glue/etl-jobs/social_media_etl.py:23-32 | every date of the range has a row |
| DateDimension.DateKeysIncreasing | glue/etl-jobs/social_media_etl.py:31-32 | dates and date keys strictly increase down the rows, so both are unique |
| DateDimension.DayOfWeekAdvances | glue/etl-jobs/social_media_etl.py:37 | consecutive rows are consecutive days and day_of_week advances by one modulo 7 |
| DateDimension.FirstRow | glue/etl-jobs/social_media_etl.py:23-38 | the first row is 2024-01-01, day_of_week 2, "Monday" |
| DateDimension.RowColumns | glue/etl-jobs/social_media_etl.py:31-39 | each row's key packs its year, month and day; month in 1..12, quarter in 1..4, day_of_week in 1..7; is_weekend iff day_of_week is 1 or 7, iff the day is Saturday or Sunday |
| SocialMediaEtl.Abs32 | glue/etl-jobs/social_media_etl.py:54 | `F.abs` gives the magnitude of every int except -2^31, which it returns unchanged |
| SocialMediaEtl.ConcatColumns | glue/etl-jobs/social_media_etl.py:86 | `F.concat` is null iff either part is null; otherwise it is the first part followed by the second |
| SocialMediaEtl.FactDateKeyJoins | glue/etl-jobs/social_media_etl.py:66 | a fact's date key for a date within the range names a row of the date dimension (the same key expression is used at lines 99 and 128) |
| SocialMediaEtl.Distinct | glue/etl-jobs/social_media_etl.py:61 | `distinct` has no duplicates, keeps every input row, adds no row, and is never longer (the same `distinct` ends lines 94 and 123) |
| SocialMediaEtl.DistinctOfDistinctRows | glue/etl-jobs/social_media_etl.py:61 | rows that are pairwise different are all kept (the result is as long as the input); in the model's order they also stay in place |
| SocialMediaEtl.DistinctShrinks | glue/etl-jobs/social_media_etl.py:61 | two rows equal in every column make the result shorter |
| SocialMediaEtl.RedditFacts | glue/etl-jobs/social_media_etl.py:64-71 | one engagement row per record, in order; upvotes = score, comments_count = num_comments, upvote_ratio copied, date key of created_utc |
| SocialMediaEtl.RedditKeysJoin | glue/etl-jobs/social_media_etl.py:53-65 | each engagement row carries the content key of its record's dimension row, which the dimension holds; equal post ids give equal keys |
| SocialMediaEtl.RedditDimension | glue/etl-jobs/social_media_etl.py:53-61 | the content dimension is duplicate-free, holds only records' rows, and every content_type is "reddit_post" |
| SocialMediaEtl.SentimentCases | glue/etl-jobs/social_media_etl.py:101-103 | sentiment is 1 iff "positive" occurs; -1 iff "negative" occurs and "positive" does not; 0 iff neither occurs |
| SocialMediaEtl.SentimentIsCaseSensitive | glue/etl-jobs/social_media_etl.py:101 | "Positive" scores 0 |
| SocialMediaEtl.NewsFacts | glue/etl-jobs/social_media_etl.py:97-104 | one news fact per record, in order; date key of published_at; description_length is the description's length or null; sentiment_score is the keyword sentiment of the description (characterised by SentimentCases), in {-1,0,1}, 0 for a null description |
| SocialMediaEtl.NewsKeysJoin | glue/etl-jobs/social_media_etl.py:85-98 | each news fact carries the article key of its record's dimension row, which the dimension holds |
| SocialMediaEtl.NullSourceSharesKey | glue/etl-jobs/social_media_etl.py:86-98 | all articles without a source name get the same key, whatever their title |
| SocialMediaEtl.NewsDimension | glue/etl-jobs/social_media_etl.py:85-94 | the news dimension is duplicate-free and holds only records' rows |
| SocialMediaEtl.CryptoFacts | glue/etl-jobs/social_media_etl.py:117-129 | one price fact per record; its date key is that of last_updated and its key is the key of its record's dimension row, which the dimension holds |
| SocialMediaEtl.DistinctCoinsKeepAllRows | glue/etl-jobs/social_media_etl.py:117-123 | distinct coin ids give one dimension row per record |
| SocialMediaEtl.RepeatedCoinCollapses | glue/etl-jobs/social_media_etl.py:117-135 | two snapshots of a coin that agree on the dimension's columns collapse into one dimension row, even when their last_updated differs, while both keep their own fact and its date key |
| Extraction.RawKeyInjective | lambda/reddit-extractor/reddit_data_extractor.py:39-40 | under one prefix, runs at different seconds write to different object keys |
| Extraction.ProcessedMessageCount | lambda/reddit-extractor/reddit_data_extractor.py:55 | the success message's count can be read back from it |
| Extraction.ConcatAppend | lambda/reddit-extractor/reddit_data_extractor.py:105-136 | a loop that appends each name's results: one more name appends exactly that name's results |
| Extraction.ConcatTake | lambda/news-extractor/news_data_extractor.py:67-98 | extending the processed prefix of the fixed list by one name appends that name's results |
| Extraction.ConcatOrigin | lambda/news-extractor/news_data_extractor.py:67-98 | every element of the concatenation comes from the results of one of the names |
| Extraction.MappedPrefixSpec | lambda/reddit-extractor/reddit_data_extractor.py:105-136 | appending inside a try keeps, in order, the records of the items before the first one that raises, and nothing after it |
| Extraction.MappedPrefixUnique | lambda/news-extractor/news_data_extractor.py:83-98 | that characterisation determines the kept records |
| Extraction.MapAllSpec | lambda/crypto-extractor/crypto_data_extractor.py:72-91 | a loop whose exception escapes yields all records iff every item maps, one per item in order |
| RedditExtractor.Truncate | lambda/reddit-extractor/reddit_data_extractor.py:127 | `[:500]` keeps a string or list unchanged up to 500 elements and cuts it to its first 500 otherwise; anything else raises |
| RedditExtractor.PostFields | lambda/reddit-extractor/reddit_data_extractor.py:116-129 | a child that is not an object with an object under data raises; otherwise the record exists unless selftext is present and neither a string nor a list; id, title, author, subreddit, created_utc and url are copied or null when absent; score, upvote_ratio and num_comments are copied or 0; selftext is "" when absent and otherwise cut to its first 500 elements; extraction_date is the run's time |
| RedditExtractor.CommunityContribution | lambda/reddit-extractor/reddit_data_extractor.py:105-136 | a failed fetch or a body without a children list contributes nothing; otherwise the records of the children before the first one that raises |
| RedditExtractor.CommunityOrder | lambda/reddit-extractor/reddit_data_extractor.py:97-110 | the listing requests go out for technology, datascience, worldnews and cryptocurrency, in that order |
| RedditExtractor.PostsOfCommunities | lambda/reddit-extractor/reddit_data_extractor.py:97-105 | the posts are technology's, then datascience's, then worldnews', then cryptocurrency's |
| RedditExtractor.AppendPosts | lambda/reddit-extractor/reddit_data_extractor.py:116-130 | the inner loop appends the records of the children before the first one that raises |
| RedditExtractor.ExtractRedditDataWithToken | lambda/reddit-extractor/reddit_data_extractor.py:93-138 | the result is the four communities' contributions concatenated in the fixed order, after one listing request per community in that order |
| RedditExtractor.LambdaHandler | lambda/reddit-extractor/reddit_data_extractor.py:11-65 | missing or empty credentials: 400 with the fixed message and no calls; token failure: 500 with its message and no listing request; otherwise the four listings, then one upload to raw-data/reddit/reddit_posts_{timestamp}.json, 200 with the post count (even zero) or 500 when the upload fails |
| NewsExtractor.CategoryContribution | lambda/news-extractor/news_data_extractor.py:67-98 | a failed fetch contributes nothing; otherwise the records of the articles before the first one that raises, each tagged with the category and country "us" |
| NewsExtractor.NoArticlesNoRecords | lambda/news-extractor/news_data_extractor.py:81 | a response without an articles key contributes no records and no error |
| NewsExtractor.ArticlesTagged | lambda/news-extractor/news_data_extractor.py:67-91 | every extracted article carries one of the requested categories |
| NewsExtractor.ArticleFields | lambda/news-extractor/news_data_extractor.py:84-94 | an article object raises iff its source is present and not an object; otherwise title, description, author, publishedAt and url are copied or null when absent, source_name is the source's name or null, category is the request's, country "us" and extraction_date the run's time |
| NewsExtractor.NonObjectArticleRaises | lambda/news-extractor/news_data_extractor.py:83-85 | an article that is not an object raises |
| NewsExtractor.CategoryOrder | lambda/news-extractor/news_data_extractor.py:64-77 | the headlines requests go out for technology, business and science, in that order |
| NewsExtractor.ArticlesOfCategories | lambda/news-extractor/news_data_extractor.py:64-67 | the articles are technology's, then business', then science's |
| NewsExtractor.AppendArticles | lambda/news-extractor/news_data_extractor.py:83-94 | the inner loop appends the records of the articles before the first one that raises |
| NewsExtractor.ExtractNewsData | lambda/news-extractor/news_data_extractor.py:60-100 | the result is the three categories' contributions concatenated in the fixed order, after one headlines request per category in that order |
| NewsExtractor.LambdaHandler | lambda/news-extractor/news_data_extractor.py:11-58 | a missing or empty key: 400 with the fixed error text, returned rather than raised, and no calls; otherwise the three requests, then one upload to raw-data/news/news_articles_{timestamp}.json, 200 with the article count or 500 when the upload fails |
| CryptoExtractor.CoinFields | lambda/crypto-extractor/crypto_data_extractor.py:72-85 | a coin yields a record iff it is an object; the ten fields are copied under their new names, null when absent, and extraction_date is the run's time |
| CryptoExtractor.CryptoDataSpec | lambda/crypto-extractor/crypto_data_extractor.py:52-91 | a failed fetch re-raises its message; otherwise the extraction succeeds iff the body is a list (or an empty dict or string) of objects, and then yields one record per coin in order, each that coin's mapping (CoinFields) |
| CryptoExtractor.OneBadCoinFailsAll | lambda/crypto-extractor/crypto_data_extractor.py:72-91 | one non-object item fails the whole extraction: no partial list |
| CryptoExtractor.ExtractCryptoData | lambda/crypto-extractor/crypto_data_extractor.py:52-91 | the loop's outcome is exactly the all-or-nothing extraction |
| CryptoExtractor.LambdaHandler | lambda/crypto-extractor/crypto_data_extractor.py:11-50 | no credential check; the market request always happens; an extraction failure gives 500 with its cause and no upload; otherwise one upload to raw-data/crypto/crypto_prices_{timestamp}.json and 200 with the coin count, or 500 when the upload fails |

## Left out

- Glue catalog reads, Spark/Glue context setup, `job.init`, `job.commit` and the parquet writes of `main`: storage and job I/O. The order and non-atomicity of the seven writes are not modelled.
- HTTP requests, OAuth, timeouts and `raise_for_status`: each is reduced to the abstract outcome it produces.
- `put_object` and the S3 bucket name: the upload is a call in the trace plus an optional exception text. `json.dumps` serialisation, `indent=2` and logging are not modelled.
- `get_reddit_access_token`: modelled only by its outcome, a token or an exception text.
- `engagement_score` and the crypto fact's price, market cap, volume and change columns: these are floating-point, `DecimalType` or `LongType` casts and struct `getItem`s. The crypto raw record keeps only the columns the crypto dimension and the fact's keys use.
- `from_unixtime`, `to_timestamp` and their session timezone and pattern parsing: a timestamp column is an already-decomposed UTC `DateTime` or null. An unparseable string (null in Spark) is the null case.
- Spark's `F.hash` (Murmur3): an uninterpreted parameter. No claim of collision freedom.
- `month_name` and `day_name`: fixed English tables, not Spark's locale-dependent formatting.
- SocialMediaEtl.Distinct: Spark promises no row order for `distinct`. The model keeps each row's last occurrence. Only one clause depends on that order: the in-order equality `Distinct(s) == s` of `DistinctOfDistinctRows`, which holds for the model, not for Spark. Its order-free clause, `|Distinct(s)| == |s|`, together with `Distinct`'s own contract, is what Spark promises.
- `datetime.now()`: the file name's clock reading and one `extraction_date` string are inputs. The model does not capture that Python reads the clock once per record, so records of one run may hold different times.
- The texts of the exceptions Python raises on a malformed item (a `KeyError`, `TypeError` or `AttributeError`): the crypto error case `MalformedItem` stands for each of them without its text.
- Floating-point JSON numbers are kept as `real` and only copied.
- Calendar.DateRange: requires its bounds in order. The "Illegal sequence boundaries" error Spark raises for a stop before the start is not modelled, since the job's only bounds are the in-order constants of `RangeBounds`.
- Calendar.FileTimestamp: writes a year below 1000 unpadded. Whether `%Y` pads such a year depends on the Python version and the C library: glibc leaves it unpadded, and recent CPython releases pad it to four digits themselves. `datetime.now()` never gives such a year, and `FileTimestampWidth` states the 15-character form for every year from 1000 on.
