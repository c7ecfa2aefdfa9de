/**
 * `Controller`: walks the keyword cursor of the store batch by batch and either
 * searches every keyword and saves the results (`run_full`) or starts one stream per
 * keyword (`run_streaming`).
 */
module Control {
  import opened Wrappers
  import opened Tweets
  import opened Backoff
  import opened Mongo
  import opened Crawler
  import opened Dispatch

  class Controller {
    const crawler: TwitterCrawler
    const mongo: MongoController

    /** The crawler and the store are given rather than built from the environment. */
    constructor (crawler: TwitterCrawler, mongo: MongoController)
      ensures this.crawler == crawler && this.mongo == mongo
    {
      this.crawler := crawler;
      this.mongo := mongo;
    }

    /** `__save_tweet`: one `add_crawl_twitter` call carrying the result's six fields. */
    method SaveTweet(result: TwitterResult)
      modifies mongo
      ensures mongo.records == old(mongo.records) + [result]
    {
      mongo.AddCrawlTwitter(result.keywordId, result.tweetId, result.text, result.likes, result.retweets, result.timestamp);
    }

    /** `__save_tweets`: save every result, one call each, in list order. */
    method SaveTweets(results: seq<TwitterResult>)
      modifies mongo
      ensures mongo.records == old(mongo.records) + results
    {
      for i := 0 to |results|
        invariant mongo.records == old(mongo.records) + results[..i]
      {
        SaveTweet(results[i]);
        assert results[..i + 1] == results[..i] + [results[i]];
      }
    }

    /** `enable_streams`: start one stream per keyword, in order, all saving into this store. */
    method EnableStreams(keywords: seq<Keyword>)
      modifies crawler
      ensures crawler.streams == old(crawler.streams) + Subscriptions(keywords, mongo)
    {
      for i := 0 to |keywords|
        invariant crawler.streams == old(crawler.streams) + Subscriptions(keywords[..i], mongo)
      {
        crawler.StartStream(keywords[i], mongo);
        assert keywords[..i + 1][..i] == keywords[..i];
      }
      assert keywords[..|keywords|] == keywords;
    }

    /** The inner loop of `run_streaming`: `enable_streams([keyword])` for each keyword of one batch. */
    method StreamBatch(batch: seq<Keyword>)
      modifies crawler
      ensures crawler.streams == old(crawler.streams) + Subscriptions(batch, mongo)
    {
      for j := 0 to |batch|
        invariant crawler.streams == old(crawler.streams) + Subscriptions(batch[..j], mongo)
      {
        EnableStreams([batch[j]]);
        assert batch[..j + 1] == batch[..j] + [batch[j]];
        SubscriptionsSnoc(batch[..j], batch[j], mongo);
      }
      assert batch[..|batch|] == batch;
    }

    /** `run_streaming`: enable a stream for each keyword of the cursor, batch by batch. */
    method RunStreaming()
      modifies crawler
      ensures crawler.streams == old(crawler.streams) + Subscriptions(Flatten(mongo.keywordBatches), mongo)
    {
      var cursor := mongo.GetKeywordBatchCursor();
      for i := 0 to |cursor|
        invariant crawler.streams == old(crawler.streams) + Subscriptions(Flatten(cursor[..i]), mongo)
      {
        StreamBatch(cursor[i]);
        FlattenSnoc(cursor, i);
        SubscriptionsAppend(Flatten(cursor[..i]), cursor[i], mongo);
      }
      assert cursor[..|cursor|] == cursor;
    }

    /** The search of keyword `k` made by the full crawl when its first call is call number `m`. */
    ghost function KeywordRun(): (Keyword, nat) -> SearchRun {
      KeywordSearch(crawler.supportedLanguages, crawler.api.responses)
    }

    /**
     * The inner loop of `run_full` over one batch, the next keywords of `all` after
     * `done`: search each and save its results, or stop the crawl at the first exception.
     */
    method CrawlBatch(batch: seq<Keyword>, ghost all: seq<Keyword>, ghost done: seq<Keyword>,
                      ghost n0: nat, ghost records0: seq<TwitterResult>, ghost queries0: seq<Query>)
      returns (r: Outcome<Error>)
      requires |done| + |batch| <= |all| && all[..|done| + |batch|] == done + batch
      requires CrawledUpTo(KeywordRun(), all, done, n0, records0, queries0, mongo.records, crawler.api.calls, crawler.api.queries)
      modifies mongo, crawler.api
      ensures r.Pass? ==>
                CrawledUpTo(KeywordRun(), all, done + batch, n0, records0, queries0, mongo.records, crawler.api.calls, crawler.api.queries)
      ensures r.Fail? ==>
                CrawledAll(KeywordRun(), all, n0, records0, queries0, mongo.records, crawler.api.calls, crawler.api.queries, r)
    {
      ghost var search := KeywordRun();
      assert batch[..0] == [] && done + [] == done;
      for j := 0 to |batch|
        invariant CrawledUpTo(search, all, done + batch[..j], n0, records0, queries0, mongo.records, crawler.api.calls, crawler.api.queries)
      {
        var keyword := batch[j];
        ghost var run := search(keyword, crawler.api.calls);
        assert run == SearchRec(crawler.supportedLanguages, keyword, InitialBackOff, crawler.api.responses, crawler.api.calls);
        CrawlAdvance(search, all, done, batch, j, n0, records0, queries0, mongo.records, crawler.api.calls, crawler.api.queries);
        var results;
        ghost var waits;
        results, waits := crawler.Search(keyword, InitialBackOff, SearchLimit);
        if results.Failure? {
          return Fail(results.error);
        }
        SaveTweets(results.value);
      }
      assert batch[..|batch|] == batch;
      r := Pass;
    }

    /**
     * `run_full`: search each keyword of the cursor, batch by batch, with limit 10, and
     * save all of its results before the next keyword. An exception from a search ends
     * the crawl at once.
     */
    method RunFull() returns (r: Outcome<Error>)
      modifies mongo, crawler.api
      ensures var keywords := Flatten(mongo.keywordBatches);
              var runs := CrawlRuns(KeywordRun(), old(crawler.api.calls), keywords);
              && r == CrawlOutcome(runs)
              && mongo.records == old(mongo.records) + Saved(runs)
              && crawler.api.calls == old(crawler.api.calls) + TotalCalls(runs)
              && crawler.api.queries == old(crawler.api.queries) + Queries(keywords, runs)
    {
      var cursor := mongo.GetKeywordBatchCursor();
      ghost var all := Flatten(cursor);
      ghost var n0, records0, queries0 := crawler.api.calls, mongo.records, crawler.api.queries;
      assert all[..0] == [];
      for i := 0 to |cursor|
        invariant CrawledUpTo(KeywordRun(), all, Flatten(cursor[..i]), n0, records0, queries0,
                              mongo.records, crawler.api.calls, crawler.api.queries)
      {
        FlattenSnoc(cursor, i);
        FlattenAppend(cursor[..i + 1], cursor[i + 1..]);
        assert cursor[..i + 1] + cursor[i + 1..] == cursor;
        r := CrawlBatch(cursor[i], all, Flatten(cursor[..i]), n0, records0, queries0);
        if r.Fail? {
          return;
        }
      }
      assert cursor[..|cursor|] == cursor;
      r := Pass;
    }
  }
}
