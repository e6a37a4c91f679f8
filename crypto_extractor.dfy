/**
 * The crypto extractor: one request for the market listing, each coin
 * flattened into a record, all records stored as one JSON file. Unlike the
 * other two extractors, an item of the wrong shape fails the whole run.
 */
module CryptoExtractor {
  import opened Options
  import opened Calendar
  import opened Json
  import opened Extraction

  const KeyPrefix := "raw-data/crypto/crypto_prices_"

  /** One flattened coin; all fields but extraction_date are copied from the API item. */
  datatype CoinRecord = CoinRecord(
    coinId: Json,
    symbol: Json,
    name: Json,
    currentPrice: Json,
    marketCap: Json,
    marketCapRank: Json,
    priceChange24h: Json,
    priceChangePercentage24h: Json,
    totalVolume: Json,
    lastUpdated: Json,
    extractionDate: string)

  /** The record for one coin, or None when `.get` on it raises because it is not an object. */
  function NormalizeCoin(coin: Json, now: string): Option<CoinRecord> {
    match coin
    case JObject(c) =>
      Some(CoinRecord(
        coinId := Get(c, "id"),
        symbol := Get(c, "symbol"),
        name := Get(c, "name"),
        currentPrice := Get(c, "current_price"),
        marketCap := Get(c, "market_cap"),
        marketCapRank := Get(c, "market_cap_rank"),
        priceChange24h := Get(c, "price_change_24h"),
        priceChangePercentage24h := Get(c, "price_change_percentage_24h"),
        totalVolume := Get(c, "total_volume"),
        lastUpdated := Get(c, "last_updated"),
        extractionDate := now))
    case _ => None
  }

  function CoinNormalizer(now: string): Json -> Option<CoinRecord> {
    coin => NormalizeCoin(coin, now)
  }

  /**
   * The items `for coin in data` visits before `.get` is first called: a
   * list's elements; nothing for an empty dict or an empty string. Any
   * other body raises (None): a null, a boolean or a number is not
   * iterable, and a non-empty dict or string yields a string first.
   */
  function Coins(body: Json): Option<seq<Json>> {
    match body
    case JArray(items) => Some(items)
    case JObject(m) => if m == map[] then Some([]) else None
    case JString(s) => if s == "" then Some([]) else None
    case _ => None
  }

  /** extract_crypto_data: every coin's record, or the exception that escapes it. */
  function CryptoData(outcome: FetchOutcome, now: string): Result<seq<CoinRecord>, Cause> {
    match outcome
    case FetchFailed(message) => Err(Raised(message))
    case Fetched(body) =>
      match Coins(body)
      case None => Err(MalformedItem)
      case Some(items) =>
        match MapAll(CoinNormalizer(now), items)
        case None => Err(MalformedItem)
        case Some(records) => Ok(records)
  }

  /**
   * The field mapping of a coin: an object gives a record that copies the
   * ten fields under their new names, None for an absent one, and stamps
   * the extraction date; anything else raises.
   */
  lemma CoinFields(coin: Json, now: string)
    ensures NormalizeCoin(coin, now).Some? <==> coin.JObject?
    ensures coin.JObject? ==>
      var c, r := coin.fields, NormalizeCoin(coin, now).value;
      && r.coinId == (if "id" in c then c["id"] else JNull)
      && r.symbol == (if "symbol" in c then c["symbol"] else JNull)
      && r.name == (if "name" in c then c["name"] else JNull)
      && r.currentPrice == (if "current_price" in c then c["current_price"] else JNull)
      && r.marketCap == (if "market_cap" in c then c["market_cap"] else JNull)
      && r.marketCapRank == (if "market_cap_rank" in c then c["market_cap_rank"] else JNull)
      && r.priceChange24h == (if "price_change_24h" in c then c["price_change_24h"] else JNull)
      && r.priceChangePercentage24h ==
           (if "price_change_percentage_24h" in c then c["price_change_percentage_24h"] else JNull)
      && r.totalVolume == (if "total_volume" in c then c["total_volume"] else JNull)
      && r.lastUpdated == (if "last_updated" in c then c["last_updated"] else JNull)
      && r.extractionDate == now
  {
  }

  /**
   * The extraction succeeds exactly when the fetch succeeds, the body is a
   * list (or an empty dict or string) and every item is an object; it then
   * keeps one record per coin, in the API's order, each the coin's mapping
   * (CoinFields).
   */
  lemma CryptoDataSpec(outcome: FetchOutcome, now: string)
    ensures outcome.FetchFailed? ==> CryptoData(outcome, now) == Err(Raised(outcome.message))
    ensures outcome.Fetched? ==>
      (CryptoData(outcome, now).Ok? <==>
         && Coins(outcome.body).Some?
         && forall k :: 0 <= k < |Coins(outcome.body).value| ==> Coins(outcome.body).value[k].JObject?)
    ensures CryptoData(outcome, now).Err? && outcome.Fetched? ==> CryptoData(outcome, now).error == MalformedItem
    ensures CryptoData(outcome, now).Ok? ==>
      var items, records := Coins(outcome.body).value, CryptoData(outcome, now).value;
      && |records| == |items|
      && forall k :: 0 <= k < |items| ==>
           && items[k].JObject?
           && Some(records[k]) == NormalizeCoin(items[k], now)
  {
    if outcome.Fetched? && Coins(outcome.body).Some? {
      var items := Coins(outcome.body).value;
      MapAllSpec(CoinNormalizer(now), items);
      assert forall k :: 0 <= k < |items| ==> (NormalizeCoin(items[k], now).Some? <==> items[k].JObject?);
    }
  }

  /** A list holding one item that is not an object fails the whole extraction, whatever else it holds. */
  lemma OneBadCoinFailsAll(before: seq<Json>, bad: Json, after: seq<Json>, now: string)
    requires !bad.JObject?
    ensures CryptoData(Fetched(JArray(before + [bad] + after)), now) == Err(MalformedItem)
  {
    var items := before + [bad] + after;
    assert items[|before|] == bad;
    CryptoDataSpec(Fetched(JArray(items)), now);
  }

  /**
   * The loop over the coins; the exception its first non-object raises
   * escapes the function.
   */
  method ExtractCryptoData(outcome: FetchOutcome, now: string) returns (r: Result<seq<CoinRecord>, Cause>)
    ensures r == CryptoData(outcome, now)
  {
    if outcome.FetchFailed? {
      return Err(Raised(outcome.message));
    }
    var coins := Coins(outcome.body);
    if coins.None? {
      return Err(MalformedItem);
    }
    var items := coins.value;
    var records: seq<CoinRecord> := [];
    for j := 0 to |items|
      invariant |records| == j
      invariant forall k :: 0 <= k < j ==> NormalizeCoin(items[k], now) == Some(records[k])
    {
      var record := NormalizeCoin(items[j], now);
      if record.None? {
        MapAllSpec(CoinNormalizer(now), items);
        return Err(MalformedItem);
      }
      records := records + [record.value];
    }
    MappedPrefixUnique(CoinNormalizer(now), items, records);
    r := Ok(records);
  }

  /** lambda_handler: extraction, then the upload; any exception becomes a 500. */
  method LambdaHandler(fetch: FetchOutcome, clock: DateTime, now: string, putError: Option<string>)
    returns (inv: Invocation<CoinRecord>)
    requires ValidDateTime(clock)
    ensures CryptoData(fetch, now).Err? ==>
      inv == Invocation(Response(500, Error(CryptoData(fetch, now).error)), [MarketsGet], None)
    ensures CryptoData(fetch, now).Ok? ==>
      Uploaded(inv, [MarketsGet], RawKey(KeyPrefix, clock), "crypto prices", CryptoData(fetch, now).value, putError)
  {
    var data := ExtractCryptoData(fetch, now);
    if data.Err? {
      return Invocation(Response(500, Error(data.error)), [MarketsGet], None);
    }
    var filename := RawKey(KeyPrefix, clock);
    var calls := [MarketsGet] + [PutObject(filename)];
    if putError.Some? {
      return Invocation(Response(500, Error(Raised(putError.value))), calls, None);
    }
    inv := Invocation(Response(200, Processed(ProcessedMessage(|data.value|, "crypto prices"), filename)), calls,
                      Some(StoredObject(filename, data.value)));
  }
}
