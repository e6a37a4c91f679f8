/**
 * The reddit extractor: after an OAuth client-credentials token, it reads
 * the hot listing of four communities in a fixed order, flattens each post
 * into a record, and stores all records as one JSON file.
 */
module RedditExtractor {
  import opened Options
  import opened Calendar
  import opened Json
  import opened Extraction

  const Communities := ["technology", "datascience", "worldnews", "cryptocurrency"]
  const SelftextLimit := 500
  const KeyPrefix := "raw-data/reddit/reddit_posts_"
  const CredentialsMessage := "REDDIT_CLIENT_ID and REDDIT_CLIENT_SECRET must be set"

  /** get_reddit_access_token: the token, or the text of the exception it raised. */
  datatype TokenOutcome = Token(accessToken: string) | TokenFailed(message: string)

  /** One flattened post; all fields but extraction_date are copied from the API item. */
  datatype RedditPost = RedditPost(
    postId: Json,
    title: Json,
    author: Json,
    subreddit: Json,
    score: Json,
    upvoteRatio: Json,
    numComments: Json,
    createdUtc: Json,
    selftext: Json,
    url: Json,
    extractionDate: string)

  /**
   * value[:500]: strings and lists are cut to their first 500 elements;
   * slicing any other value raises (None).
   */
  function Truncate(v: Json): (r: Option<Json>)
    ensures v.JString? ==>
      && r.Some? && r.value.JString?
      && |r.value.s| == (if |v.s| <= SelftextLimit then |v.s| else SelftextLimit)
      && r.value.s == v.s[..|r.value.s|]
    ensures v.JArray? ==>
      && r.Some? && r.value.JArray?
      && |r.value.items| == (if |v.items| <= SelftextLimit then |v.items| else SelftextLimit)
      && r.value.items == v.items[..|r.value.items|]
    ensures !v.JString? && !v.JArray? ==> r.None?
  {
    match v
    case JString(s) => Some(JString(if |s| <= SelftextLimit then s else s[..SelftextLimit]))
    case JArray(items) => Some(JArray(if |items| <= SelftextLimit then items else items[..SelftextLimit]))
    case _ => None
  }

  /**
   * The record for one listing child, or None when building it raises: the
   * child is not an object with an object under "data", or its selftext
   * cannot be sliced.
   */
  function NormalizePost(post: Json, now: string): Option<RedditPost> {
    if !post.JObject? || "data" !in post.fields || !post.fields["data"].JObject? then None
    else
      var d := post.fields["data"].fields;
      match Truncate(GetOr(d, "selftext", JString("")))
      case None => None
      case Some(selftext) =>
        Some(RedditPost(
          postId := Get(d, "id"),
          title := Get(d, "title"),
          author := Get(d, "author"),
          subreddit := Get(d, "subreddit"),
          score := GetOr(d, "score", JInt(0)),
          upvoteRatio := GetOr(d, "upvote_ratio", JInt(0)),
          numComments := GetOr(d, "num_comments", JInt(0)),
          createdUtc := Get(d, "created_utc"),
          selftext := selftext,
          url := Get(d, "url"),
          extractionDate := now))
  }

  function PostNormalizer(now: string): Json -> Option<RedditPost> {
    post => NormalizePost(post, now)
  }

  /**
   * data['data']['children'] when it is a list. Any other shape makes the
   * lookup or the loop raise before a post is appended (iterating a dict or
   * a string yields strings, and indexing a string by 'data' raises), so it
   * contributes no posts.
   */
  function Children(body: Json): Option<seq<Json>> {
    if body.JObject? && "data" in body.fields && body.fields["data"].JObject?
       && "children" in body.fields["data"].fields && body.fields["data"].fields["children"].JArray?
    then Some(body.fields["data"].fields["children"].items)
    else None
  }

  /** What one community's try block leaves appended to all_posts. */
  function CommunityPosts(outcome: FetchOutcome, now: string): seq<RedditPost> {
    match outcome
    case FetchFailed(_) => []
    case Fetched(body) =>
      match Children(body)
      case None => []
      case Some(items) => MappedPrefix(PostNormalizer(now), items)
  }

  /** One listing request per community, in order. */
  function Listings(cs: seq<string>): seq<Call> {
    seq(|cs|, k requires 0 <= k < |cs| => ListingGet(cs[k]))
  }

  lemma ListingsTake(cs: seq<string>, i: int)
    requires 0 <= i < |cs|
    ensures Listings(cs[..i + 1]) == Listings(cs[..i]) + [ListingGet(cs[i])]
  {
  }

  /** The body of the loop over communities, as a function of the community's name. */
  function PostsFrom(fetch: string -> FetchOutcome, now: string): string -> seq<RedditPost> {
    community => CommunityPosts(fetch(community), now)
  }

  /**
   * What a community contributes: nothing when its fetch fails, otherwise
   * the records of its children up to, not including, the first child whose
   * record cannot be built; every child's record when none fails.
   */
  lemma CommunityContribution(outcome: FetchOutcome, now: string)
    ensures outcome.FetchFailed? ==> CommunityPosts(outcome, now) == []
    ensures outcome.Fetched? && Children(outcome.body).None? ==> CommunityPosts(outcome, now) == []
    ensures outcome.Fetched? && Children(outcome.body).Some? ==>
      var items, posts := Children(outcome.body).value, CommunityPosts(outcome, now);
      && |posts| <= |items|
      && (forall k :: 0 <= k < |posts| ==> NormalizePost(items[k], now) == Some(posts[k]))
      && (|posts| < |items| ==> NormalizePost(items[|posts|], now).None?)
  {
    if outcome.Fetched? && Children(outcome.body).Some? {
      MappedPrefixSpec(PostNormalizer(now), Children(outcome.body).value);
    }
  }

  /**
   * The field mapping of a listing child: a child whose "data" is an object
   * gives a record unless its selftext is present and neither a string nor
   * a list; the record copies the fields under their new names, with 0 for
   * an absent score, upvote_ratio or num_comments, None for another absent
   * field, "" for an absent selftext, and a selftext cut to its first 500
   * elements. Any other child raises.
   */
  lemma PostFields(post: Json, now: string)
    ensures !(post.JObject? && "data" in post.fields && post.fields["data"].JObject?) ==>
      NormalizePost(post, now).None?
    ensures post.JObject? && "data" in post.fields && post.fields["data"].JObject? ==>
      var d, p := post.fields["data"].fields, NormalizePost(post, now);
      && (p.None? <==> "selftext" in d && !d["selftext"].JString? && !d["selftext"].JArray?)
      && (p.Some? ==>
            && p.value.postId == (if "id" in d then d["id"] else JNull)
            && p.value.title == (if "title" in d then d["title"] else JNull)
            && p.value.author == (if "author" in d then d["author"] else JNull)
            && p.value.subreddit == (if "subreddit" in d then d["subreddit"] else JNull)
            && p.value.score == (if "score" in d then d["score"] else JInt(0))
            && p.value.upvoteRatio == (if "upvote_ratio" in d then d["upvote_ratio"] else JInt(0))
            && p.value.numComments == (if "num_comments" in d then d["num_comments"] else JInt(0))
            && p.value.createdUtc == (if "created_utc" in d then d["created_utc"] else JNull)
            && p.value.url == (if "url" in d then d["url"] else JNull)
            && p.value.extractionDate == now)
      && (p.Some? && "selftext" !in d ==> p.value.selftext == JString(""))
      && (p.Some? && "selftext" in d && d["selftext"].JString? ==>
            var t := d["selftext"].s;
            p.value.selftext == JString(if |t| <= SelftextLimit then t else t[..SelftextLimit]))
      && (p.Some? && "selftext" in d && d["selftext"].JArray? ==>
            var t := d["selftext"].items;
            p.value.selftext == JArray(if |t| <= SelftextLimit then t else t[..SelftextLimit]))
  {
  }

  /** The four communities' posts, in the fixed order. */
  lemma PostsOfCommunities(fetch: string -> FetchOutcome, now: string)
    ensures Concat(PostsFrom(fetch, now), Communities)
      == CommunityPosts(fetch("technology"), now) + CommunityPosts(fetch("datascience"), now)
         + CommunityPosts(fetch("worldnews"), now) + CommunityPosts(fetch("cryptocurrency"), now)
  {
    ConcatFour(PostsFrom(fetch, now), Communities);
  }

  /** The requests go out for technology, datascience, worldnews and cryptocurrency, in that order. */
  lemma CommunityOrder()
    ensures Listings(Communities)
      == [ListingGet("technology"), ListingGet("datascience"), ListingGet("worldnews"), ListingGet("cryptocurrency")]
  {
  }

  /**
   * The try block for one community: after the fetch, the inner loop over
   * its children, which stops at the first post that raises.
   */
  method AppendPosts(outcome: FetchOutcome, now: string) returns (added: seq<RedditPost>)
    ensures added == CommunityPosts(outcome, now)
  {
    added := [];
    if outcome.FetchFailed? || Children(outcome.body).None? {
      return;
    }
    var items := Children(outcome.body).value;
    var j := 0;
    while j < |items|
      invariant 0 <= j <= |items|
      invariant |added| == j
      invariant forall k :: 0 <= k < j ==> NormalizePost(items[k], now) == Some(added[k])
    {
      var post := NormalizePost(items[j], now);
      if post.None? {
        break;
      }
      added := added + [post.value];
      j := j + 1;
    }
    MappedPrefixUnique(PostNormalizer(now), items, added);
  }

  /**
   * extract_reddit_data_with_token: for each community in order, fetch its
   * listing and append its posts; a community whose fetch or mapping raises
   * is skipped from that point on and the loop continues.
   */
  method ExtractRedditDataWithToken(fetch: string -> FetchOutcome, now: string)
    returns (allPosts: seq<RedditPost>, calls: seq<Call>)
    ensures allPosts == Concat(PostsFrom(fetch, now), Communities)
    ensures calls == Listings(Communities)
  {
    allPosts, calls := [], [];
    var communities := Communities;
    for i := 0 to |communities|
      invariant allPosts == Concat(PostsFrom(fetch, now), communities[..i])
      invariant calls == Listings(communities[..i])
    {
      var community := communities[i];
      calls := calls + [ListingGet(community)];
      var added := AppendPosts(fetch(community), now);
      assert added == PostsFrom(fetch, now)(community);
      allPosts := allPosts + added;
      ConcatTake(PostsFrom(fetch, now), communities, i);
      ListingsTake(communities, i);
    }
    assert communities[..|communities|] == communities;
  }

  /**
   * lambda_handler: credentials first, then the token, then the listings,
   * then the upload.
   */
  method LambdaHandler(clientId: Option<string>, clientSecret: Option<string>, token: TokenOutcome,
                       fetch: string -> FetchOutcome, clock: DateTime, now: string, putError: Option<string>)
    returns (inv: Invocation<RedditPost>)
    requires ValidDateTime(clock)
    ensures Missing(clientId) || Missing(clientSecret) ==>
      inv == Invocation(Response(400, Plain(CredentialsMessage)), [], None)
    ensures !Missing(clientId) && !Missing(clientSecret) && token.TokenFailed? ==>
      inv == Invocation(Response(500, Error(Raised(token.message))), [TokenPost], None)
    ensures !Missing(clientId) && !Missing(clientSecret) && token.Token? ==>
      Uploaded(inv, [TokenPost] + Listings(Communities), RawKey(KeyPrefix, clock), "Reddit posts",
               Concat(PostsFrom(fetch, now), Communities), putError)
  {
    if Missing(clientId) || Missing(clientSecret) {
      return Invocation(Response(400, Plain(CredentialsMessage)), [], None);
    }
    if token.TokenFailed? {
      return Invocation(Response(500, Error(Raised(token.message))), [TokenPost], None);
    }
    var posts, listingCalls := ExtractRedditDataWithToken(fetch, now);
    var filename := RawKey(KeyPrefix, clock);
    var calls := [TokenPost] + listingCalls + [PutObject(filename)];
    if putError.Some? {
      return Invocation(Response(500, Error(Raised(putError.value))), calls, None);
    }
    inv := Invocation(Response(200, Processed(ProcessedMessage(|posts|, "Reddit posts"), filename)), calls,
                      Some(StoredObject(filename, posts)));
  }
}
