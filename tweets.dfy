/**
 * Normalisation of a raw tweet payload into the crawler's result record
 * (`TwitterCrawler.tweet_to_dict`).
 *
 * A raw tweet is a JSON object whose keys may or may not be present; each key the
 * code looks at is an `Option` field here. Keys the code never reads are not modelled.
 */
module Tweets {
  import opened Wrappers

  /** A tracked keyword: its database id, the search string and its language code. */
  datatype Keyword = Keyword(id: string, keywordString: string, language: string)

  /** The `extended_tweet` object; only its `full_text` key is read. */
  datatype ExtendedTweet = ExtendedTweet(fullText: Option<string>)

  /** The `retweeted_status` object; only its `extended_tweet` key is read. */
  datatype RetweetedStatus = RetweetedStatus(extendedTweet: Option<ExtendedTweet>)

  /**
   * A raw tweet. `hasReweetCount` records whether the misspelt key `reweet_count`
   * is present: the code tests for that key but then reads `retweet_count`.
   */
  datatype RawTweet = RawTweet(
    text: Option<string>,
    fullText: Option<string>,
    extendedTweet: Option<ExtendedTweet>,
    retweetedStatus: Option<RetweetedStatus>,
    favoriteCount: Option<int>,
    hasReweetCount: bool,
    retweetCount: Option<int>,
    id: Option<nat>,
    createdAt: Option<string>)

  /** The packaged result handed to the store; ids are unbounded integers. */
  datatype TwitterResult = TwitterResult(
    keywordId: string,
    tweetId: nat,
    text: string,
    likes: int,
    retweets: int,
    timestamp: string)

  /** The exceptions the crawler can raise. */
  datatype Error =
    | UnsupportedLanguage(language: string)  // the keyword's language is not supported
    | BackOffLimitExceeded                    // the back-off time grew beyond one hour
    | TweetsUnbound                           // `tweets` read before assignment after a retry
    | MissingKey(key: string)                 // a `KeyError` while reading the payload

  /** The truncated `text` field, or '' when that key is absent. */
  function BaseText(t: RawTweet): string {
    t.text.GetOr("")
  }

  /** `retweeted_status.extended_tweet.full_text`, when every key on the path is present. */
  function RetweetFullText(t: RawTweet): Option<string> {
    match t.retweetedStatus
    case None => None
    case Some(rs) =>
      match rs.extendedTweet
      case None => None
      case Some(ext) => ext.fullText
  }

  /**
   * The text the code settles on: an `if`/`elif`/`elif` chain over the keys
   * `extended_tweet`, `full_text` and `retweeted_status`, starting from the base text.
   * The result is always one of the payload's text fields, or ''.
   */
  function ResolveText(t: RawTweet): (text: string)
    ensures text == BaseText(t) || Some(text) == t.fullText || Some(text) == RetweetFullText(t)
            || (t.extendedTweet.Some? && Some(text) == t.extendedTweet.value.fullText)
  {
    var base := BaseText(t);
    if t.extendedTweet.Some? then
      t.extendedTweet.value.fullText.GetOr(base)
    else if t.fullText.Some? then
      t.fullText.value
    else
      RetweetFullText(t).GetOr(base)
  }

  /**
   * `tweet_to_dict`: package a raw tweet for a keyword. It raises `KeyError` when the
   * `reweet_count` test passes but `retweet_count` is absent, and when `id` or
   * `created_at` is absent, in that order.
   */
  function TweetToDict(k: Keyword, t: RawTweet): (r: Result<TwitterResult, Error>)
    ensures r.Success? <==>
              (t.hasReweetCount ==> t.retweetCount.Some?) && t.id.Some? && t.createdAt.Some?
    ensures t.hasReweetCount && t.retweetCount.None? ==> r == Failure(MissingKey("retweet_count"))
    ensures (t.hasReweetCount ==> t.retweetCount.Some?) && t.id.None? ==> r == Failure(MissingKey("id"))
    ensures (t.hasReweetCount ==> t.retweetCount.Some?) && t.id.Some? && t.createdAt.None? ==>
              r == Failure(MissingKey("created_at"))
    ensures r.Success? ==>
              && r.value.keywordId == k.id
              && Some(r.value.tweetId) == t.id
              && Some(r.value.timestamp) == t.createdAt
              && r.value.text == ResolveText(t)
              && r.value.likes == (if t.favoriteCount.Some? then t.favoriteCount.value else 0)
              && r.value.retweets == (if t.hasReweetCount then t.retweetCount.value else 0)
  {
    var text := ResolveText(t);
    var likes := t.favoriteCount.GetOr(0);
    if t.hasReweetCount && t.retweetCount.None? then Failure(MissingKey("retweet_count"))
    else
      var retweets := if t.hasReweetCount then t.retweetCount.value else 0;
      if t.id.None? then Failure(MissingKey("id"))
      else if t.createdAt.None? then Failure(MissingKey("created_at"))
      else Success(TwitterResult(k.id, t.id.value, text, likes, retweets, t.createdAt.value))
  }

  // ---------------------------------------------------------------------------
  // Text precedence and the quirks of the `elif` chain
  // ---------------------------------------------------------------------------

  /** `extended_tweet.full_text` wins over every other text field. */
  lemma ExtendedFullTextWins(t: RawTweet)
    requires t.extendedTweet.Some? && t.extendedTweet.value.fullText.Some?
    ensures ResolveText(t) == t.extendedTweet.value.fullText.value
  {
  }

  /**
   * An `extended_tweet` without `full_text` blocks the later branches: the text stays
   * the base text even when a top-level `full_text` or a retweet's full text exists.
   */
  lemma ExtendedWithoutFullTextBlocks(t: RawTweet)
    requires t.extendedTweet.Some? && t.extendedTweet.value.fullText.None?
    ensures ResolveText(t) == BaseText(t)
  {
  }

  /** Without `extended_tweet`, a top-level `full_text` wins and blocks the retweet branch. */
  lemma TopLevelFullTextBlocksRetweet(t: RawTweet)
    requires t.extendedTweet.None? && t.fullText.Some?
    ensures ResolveText(t) == t.fullText.value
  {
  }

  /** The retweet's extended full text is used only when neither earlier key is present. */
  lemma RetweetFullTextLast(t: RawTweet)
    requires t.extendedTweet.None? && t.fullText.None? && RetweetFullText(t).Some?
    ensures ResolveText(t) == RetweetFullText(t).value
  {
  }

  /** When no branch assigns, the text is the base `text`, or '' if that key is absent. */
  lemma FallbackToBaseText(t: RawTweet)
    requires t.extendedTweet.None? && t.fullText.None? && RetweetFullText(t).None?
    ensures ResolveText(t) == BaseText(t)
    ensures t.text.None? ==> ResolveText(t) == ""
  {
  }

  /** A count field missing from the payload defaults to 0. */
  lemma MissingCountsDefaultToZero(k: Keyword, t: RawTweet)
    requires t.favoriteCount.None? && !t.hasReweetCount && t.id.Some? && t.createdAt.Some?
    ensures TweetToDict(k, t).Success?
    ensures TweetToDict(k, t).value.likes == 0 && TweetToDict(k, t).value.retweets == 0
  {
  }

  /**
   * The `reweet_count` typo: a payload that carries `retweet_count` but not the
   * misspelt key reports 0 retweets whatever its count says.
   */
  lemma RetweetCountIgnored(k: Keyword, t: RawTweet)
    requires !t.hasReweetCount && t.retweetCount.Some? && t.id.Some? && t.createdAt.Some?
    ensures TweetToDict(k, t).Success?
    ensures TweetToDict(k, t).value.retweets == 0
  {
  }

  /** The test payload of the search test: only top-level `full_text` carries text. */
  lemma OnlyTopLevelFullText(k: Keyword)
    ensures var t := RawTweet(None, Some("some text"), None, None, Some(1), false, Some(1), Some(0), Some("01:01:20"));
            TweetToDict(k, t) == Success(TwitterResult(k.id, 0, "some text", 1, 0, "01:01:20"))
  {
  }

  /** The example of an extended payload with a large id and no retweet key. */
  lemma ExtendedPayloadExample()
    ensures var t := RawTweet(Some("hi"), None, Some(ExtendedTweet(Some("hi there"))), None, Some(5),
                              false, None, Some(123456789012345), Some("Mon Jan 02 15:04:05 +0000 2024"));
            TweetToDict(Keyword("K1", "hi", "en"), t)
            == Success(TwitterResult("K1", 123456789012345, "hi there", 5, 0, "Mon Jan 02 15:04:05 +0000 2024"))
  {
  }
}
