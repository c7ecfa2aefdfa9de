/**
 * The document store as the crawler sees it (`common.mongo.controller.MongoController`,
 * whose code is not part of this model): a batched cursor over the stored keywords and
 * `add_crawl_twitter`, which saves one crawl result.
 */
module Mongo {
  import opened Tweets

  class MongoController {
    /** The keywords the cursor yields, batch by batch, already decoded. */
    const keywordBatches: seq<seq<Keyword>>

    /** Every result saved through `add_crawl_twitter`, oldest first. */
    ghost var records: seq<TwitterResult>

    constructor (keywordBatches: seq<seq<Keyword>>)
      ensures this.keywordBatches == keywordBatches && records == []
    {
      this.keywordBatches := keywordBatches;
      records := [];
    }

    /** `get_keyword_batch_cursor`: the stored keywords in batches. */
    method GetKeywordBatchCursor() returns (cursor: seq<seq<Keyword>>)
      ensures cursor == keywordBatches
    {
      cursor := keywordBatches;
    }

    /** `add_crawl_twitter`: save one result, given field by field. */
    method AddCrawlTwitter(keywordId: string, tweetId: nat, text: string, likes: int, retweets: int, timestamp: string)
      modifies this
      ensures records == old(records) + [TwitterResult(keywordId, tweetId, text, likes, retweets, timestamp)]
    {
      records := records + [TwitterResult(keywordId, tweetId, text, likes, retweets, timestamp)];
    }
  }
}
