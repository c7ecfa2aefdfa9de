/**
 * The crawler's objects: the search service it talks to, `TwitterCrawler` with its
 * searching loop and stream start, and `TwitterStreamListener`, which classifies pushed
 * events and forwards tweets to the store.
 */
module Crawler {
  import opened Wrappers
  import opened Tweets
  import opened Backoff
  import opened Mongo

  /**
   * The Twitter search service (`tweepy.API`): the n-th search call made answers
   * `responses(n)`, whatever its arguments. Every request is logged in `queries`.
   */
  class TwitterApi {
    const responses: nat -> ApiOutcome
    var calls: nat
    ghost var queries: seq<Query>

    constructor (responses: nat -> ApiOutcome)
      ensures this.responses == responses && calls == 0 && queries == []
    {
      this.responses := responses;
      calls := 0;
      queries := [];
    }

    /** `api.search(keyword_string, count=limit, lang=language, ...)`. */
    method Search(keywordString: string, language: string, count: nat) returns (outcome: ApiOutcome)
      modifies this
      ensures outcome == responses(old(calls)) && calls == old(calls) + 1
      ensures queries == old(queries) + [Query(keywordString, language, count)]
    {
      outcome := responses(calls);
      calls := calls + 1;
      queries := queries + [Query(keywordString, language, count)];
    }
  }

  /**
   * How an enclosing `search` call continues once the calls made so far (one per wait
   * in `waits`) have led to the run `rest`: after a retry only an exception survives.
   */
  function Resume(retried: bool, waits: seq<nat>, rest: SearchRun): SearchRun {
    SearchRun(if retried then Discard(rest.result) else rest.result, waits + rest.waits, |waits| + rest.calls)
  }

  /** An answer ends the run: the answer's tweets, packaged, or only the exception after a retry. */
  lemma ResumeFound(languages: set<string>, k: Keyword, b: nat, responses: nat -> ApiOutcome, n: nat,
                    retried: bool, waits: seq<nat>)
    requires b > 0 && k.language in languages && responses(n).Found?
    requires retried <==> |waits| > 0
    ensures Resume(retried, waits, SearchRec(languages, k, b, responses, n))
            == SearchRun(if retried then Discard(MapTweets(k, responses(n).items)) else MapTweets(k, responses(n).items),
                         waits, |waits| + 1)
  {
  }

  /** A failed call whose doubled back-off exceeds the limit ends the run with the limit error. */
  lemma ResumeExceeded(languages: set<string>, k: Keyword, b: nat, responses: nat -> ApiOutcome, n: nat,
                       retried: bool, waits: seq<nat>)
    requires b > 0 && k.language in languages && responses(n) == RateLimited && 2 * b > BackOffLimit
    ensures Resume(retried, waits, SearchRec(languages, k, b, responses, n))
            == SearchRun(Failure(BackOffLimitExceeded), waits + [b], |waits| + 1)
  {
  }

  /** A failed call within the limit waits `b` and continues as a retry with back-off 2b. */
  lemma ResumeRetry(languages: set<string>, k: Keyword, b: nat, responses: nat -> ApiOutcome, n: nat,
                    retried: bool, waits: seq<nat>)
    requires b > 0 && k.language in languages && responses(n) == RateLimited && 2 * b <= BackOffLimit
    ensures Resume(retried, waits, SearchRec(languages, k, b, responses, n))
            == Resume(true, waits + [b], SearchRec(languages, k, 2 * b, responses, n + 1))
  {
    var retry := SearchRec(languages, k, 2 * b, responses, n + 1);
    assert waits + ([b] + retry.waits) == (waits + [b]) + retry.waits;
  }

  class TwitterCrawler {
    const supportedLanguages: set<string>
    const api: TwitterApi

    /** The streams started, oldest first: each keyword with the store it saves into. */
    ghost var streams: seq<(Keyword, MongoController)>

    /** The credentials and the OAuth handshake are replaced by a given service. */
    constructor (supportedLanguages: set<string>, api: TwitterApi)
      ensures this.supportedLanguages == supportedLanguages && this.api == api && streams == []
    {
      this.supportedLanguages := supportedLanguages;
      this.api := api;
      streams := [];
    }

    /** The `for tweet in tweets` loop of `search`: package every returned tweet, in order. */
    static method Normalise(k: Keyword, items: seq<RawTweet>) returns (r: Result<seq<TwitterResult>, Error>)
      ensures r == MapTweets(k, items)
    {
      var results: seq<TwitterResult> := [];
      var i := 0;
      while i < |items|
        invariant 0 <= i <= |items| && |results| == i
        invariant forall j :: 0 <= j < i ==> TweetToDict(k, items[j]) == Success(results[j])
      {
        var d := TweetToDict(k, items[i]);
        if d.Failure? {
          MapTweetsFirstFailure(k, items, i);
          assert MapTweets(k, items) == Failure(d.error);
          return Failure(d.error);
        }
        results := results + [d.value];
        i := i + 1;
      }
      r := Success(results);
      assert MapTweets(k, items).Success?;
      assert forall j :: 0 <= j < |items| ==> MapTweets(k, items).value[j] == results[j];
      assert MapTweets(k, items).value == results;
    }

    /**
     * `search(keyword, back_off_time, limit)`, its recursive retry made a loop that
     * carries the back-off time. It behaves exactly as the recursion `SearchRec`: the
     * same result, the same waits slept, the same number of calls, each with the
     * keyword's string and language and `limit`.
     */
    method Search(k: Keyword, backOffTime: nat, limit: nat) returns (r: Result<seq<TwitterResult>, Error>, ghost waits: seq<nat>)
      requires backOffTime > 0
      modifies api
      ensures var run := SearchRec(supportedLanguages, k, backOffTime, api.responses, old(api.calls));
              && r == run.result && waits == run.waits
              && api.calls == old(api.calls) + run.calls
              && api.queries == old(api.queries) + Repeat(Query(k.keywordString, k.language, limit), run.calls)
    {
      ghost var run := SearchRec(supportedLanguages, k, backOffTime, api.responses, api.calls);
      if k.language !in supportedLanguages {
        return Failure(UnsupportedLanguage(k.language)), [];
      }
      ghost var start, startQueries := api.calls, api.queries;
      ghost var q := Query(k.keywordString, k.language, limit);
      ghost var L, responses := supportedLanguages, api.responses;
      var backOff := backOffTime;
      var retried := false;
      waits := [];
      while true
        invariant backOff > 0
        invariant retried <==> |waits| > 0
        invariant api.calls == start + |waits|
        invariant api.queries == startQueries + Repeat(q, |waits|)
        invariant run == Resume(retried, waits, SearchRec(L, k, backOff, responses, api.calls))
        decreases if backOff > BackOffLimit then 0 else BackOffLimit + 1 - backOff
      {
        ghost var n := api.calls;
        var outcome := api.Search(k.keywordString, k.language, limit);
        RepeatOneMore(q, |waits|);
        match outcome
        case Found(items) =>
          ResumeFound(L, k, backOff, responses, n, retried, waits);
          var mapped := Normalise(k, items);
          r := if retried then Discard(mapped) else mapped;
          return;
        case RateLimited =>
          ghost var b, before := backOff, waits;
          waits := waits + [backOff];
          backOff := 2 * backOff;
          if backOff > BackOffLimit {
            ResumeExceeded(L, k, b, responses, n, retried, before);
            r := Failure(BackOffLimitExceeded);
            return;
          }
          ResumeRetry(L, k, b, responses, n, retried, before);
          retried := true;
      }
    }

    /**
     * `start_stream`: build a listener for the keyword that saves into `mongo` and
     * subscribe it; the subscription itself runs outside this model.
     */
    method StartStream(k: Keyword, mongo: MongoController)
      modifies this
      ensures streams == old(streams) + [(k, mongo)]
    {
      var listener := new TwitterStreamListener(k, api, mongo);
      streams := streams + [(listener.keyword, listener.mongo)];
    }
  }

  /** An event pushed by the stream: a rate `limit` notice, or any other JSON object. */
  datatype StreamEvent = LimitNotice | Content(tweet: RawTweet)

  class TwitterStreamListener {
    const keyword: Keyword
    const api: TwitterApi
    const mongo: MongoController

    constructor (keyword: Keyword, api: TwitterApi, mongo: MongoController)
      ensures this.keyword == keyword && this.api == api && this.mongo == mongo
    {
      this.keyword := keyword;
      this.api := api;
      this.mongo := mongo;
    }

    /**
     * `on_data`: a limit notice is dropped; any other event is packaged and saved,
     * exactly once; a payload that cannot be packaged raises and saves nothing.
     */
    method OnData(event: StreamEvent) returns (r: Outcome<Error>)
      modifies mongo
      ensures event.LimitNotice? ==> r == Pass && mongo.records == old(mongo.records)
      ensures event.Content? && TweetToDict(keyword, event.tweet).Success? ==>
                r == Pass && mongo.records == old(mongo.records) + [TweetToDict(keyword, event.tweet).value]
      ensures event.Content? && TweetToDict(keyword, event.tweet).Failure? ==>
                r == Fail(TweetToDict(keyword, event.tweet).error) && mongo.records == old(mongo.records)
    {
      match event
      case LimitNotice =>
        return Pass;
      case Content(tweet) =>
        var result := TweetToDict(keyword, tweet);
        if result.Failure? {
          return Fail(result.error);
        }
        var d := result.value;
        mongo.AddCrawlTwitter(d.keywordId, d.tweetId, d.text, d.likes, d.retweets, d.timestamp);
        r := Pass;
    }

    /** `on_error`: `True` (keep going, with back-off) for status 420, and `None` otherwise. */
    function OnError(statusCode: int): (keepGoing: Option<bool>)
      ensures keepGoing.Some? <==> statusCode == 420
      ensures keepGoing.Some? ==> keepGoing.value
    {
      if statusCode == 420 then Some(true) else None
    }
  }
}
