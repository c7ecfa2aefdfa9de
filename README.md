# Twitter keyword crawler — a Dafny model

This project models the core of a crawler that collects tweets for tracked keywords and
hands them to a document store. It covers two parts.

- **Normalisation and search** (`crawler.py`):
  - `tweet_to_dict` turns a raw tweet JSON payload into a result record of six fields:
    keyword id, tweet id, text, likes, retweets and timestamp.
  - `search` checks the keyword's language, then calls the search service. When the
    service raises it sleeps, doubles its back-off time and retries, giving up once the
    back-off exceeds one hour. It packages every returned tweet.
  - The stream listener drops `limit` notices and saves every other pushed tweet that
    can be packaged; one that cannot raises `KeyError` and is not saved.
    Its `on_error` returns `True` for status 420 and `None` for any other status; how the
    stream reacts to those values is tweepy's and is not modelled.
- **Dispatch** (`controller.py`):
  - The controller walks the store's batched keyword cursor in order.
  - `run_full` searches each keyword with limit 10 and saves its results before moving
    to the next keyword.
  - `run_streaming` starts one stream per keyword.

The model follows the code as written, including its quirks:

- `tweet_to_dict` tests the misspelt key `reweet_count` and then reads `retweet_count`.
- An `if`/`elif` chain picks the text, so an earlier branch blocks the later ones.
- `tweet_to_dict` raises `KeyError` for a missing `id` or `created_at`, and for a missing
  `retweet_count` when `reweet_count` is present; no malformed item is skipped.
- The code copies `created_at` verbatim; no timestamp is parsed.
- The recursive retry's return value is dropped, and `tweets` is then read unassigned.
  So a search whose first call fails never returns results.
- `run_full` has no per-keyword error isolation: the first exception ends the whole crawl.

Layout:

- `wrappers.dfy`: `Option`, `Result` and `Outcome`.
- `tweets.dfy`: the payload, the result record and `tweet_to_dict`.
- `backoff.dfy`: `SearchRec`, which is `search` as a recursive function, together with
  its properties.
- `mongo.dfy`: the store as the crawler sees it.
- `crawler.dfy`: the search service object, `TwitterCrawler` with its search loop, and
  the stream listener.
- `dispatch.dfy`: `run_full` and `run_streaming` as functions over the flattened cursor.
- `controller.dfy`: the `Controller` class with its loops.

Each method is proved against the functions:

- `TwitterCrawler.Search` carries the back-off time in a `while` loop.
- Its loop invariant ties the loop state to `SearchRec`, so the method makes the same
  calls and sleeps the same waits as the recursion.
- `Controller.RunFull` is proved to leave the store and the service exactly as
  `CrawlRuns` says.

The search service is an oracle: `responses(n)` is its answer to the n-th search call
made over the crawler's lifetime. Every request is also logged in the ghost field
`TwitterApi.queries`, and the sleeps appear as the ghost list of waits.

## Model

| member | source | states |
|---|---|---|
| Tweets.ResolveText | crawler.py:47-61 | the text is always the base `text` (or ''), the top-level `full_text`, `extended_tweet.full_text` or the retweet's extended full text |
| Tweets.TweetToDict | crawler.py:39-86 | packaging succeeds exactly when `id` and `created_at` are present and the `reweet_count` test does not lead to a missing `retweet_count`; the `KeyError`s come in the order `retweet_count`, `id`, `created_at`; on success the keyword id, tweet id and timestamp are copied, the text is the resolved text, likes default to 0 and retweets are 0 unless `reweet_count` is present |
| Tweets.ExtendedFullTextWins | crawler.py:53-55 | `extended_tweet.full_text` wins over every other text field |
| Tweets.ExtendedWithoutFullTextBlocks | crawler.py:53-58 | an `extended_tweet` without `full_text` leaves the base text, whatever `full_text` or `retweeted_status` hold |
| Tweets.TopLevelFullTextBlocksRetweet | crawler.py:56-61 | without `extended_tweet`, a top-level `full_text` is the text and the retweet branch is not consulted |
| Tweets.RetweetFullTextLast | crawler.py:58-61 | the retweet's extended full text is taken only when neither earlier key is present |
| Tweets.FallbackToBaseText | crawler.py:47-50 | when no branch assigns, the text is the base `text`, and '' when that key is absent |
| Tweets.MissingCountsDefaultToZero | crawler.py:63-71 | with no count keys the likes and the retweets are 0 |
| Tweets.RetweetCountIgnored | crawler.py:68-71 | a payload with `retweet_count` but without the misspelt `reweet_count` reports 0 retweets |
| Tweets.OnlyTopLevelFullText | test/crawler_test.py:27-50 | the test payload, whose only text is the top-level `full_text` 'some text', packages to that text with 1 like and 0 retweets |
| Tweets.ExtendedPayloadExample | crawler.py:53-84 | an extended payload with a 15-digit id packages to its extended full text with the id unchanged |
| Backoff.MapTweets | crawler.py:114-118 | the loop over the tweets succeeds exactly when every tweet packages; the results are then the packaged tweets one for one, in order; otherwise the `KeyError` of the first failing tweet |
| Backoff.MapTweetsFirstFailure | crawler.py:115-118 | the first tweet that cannot be packaged decides the exception |
| Backoff.SearchRec | crawler.py:88-112 | `search` as the code writes it: the language check, one call, and on an exception a wait, the doubled back-off, the limit test and a recursive retry whose result is discarded; its properties are proved in the lemmas below, not in its own contract |
| Backoff.Discard | crawler.py:112-115 | after a retry only an exception survives: a retry's exception is passed on, and a retry's result becomes the unassigned-`tweets` error |
| Backoff.UnsupportedLanguageRaisesFirst | crawler.py:96-97 | an unsupported language raises with no search call and no wait |
| Backoff.SupportedLanguageCalls | crawler.py:96-112 | a supported language makes at least one call and never raises the language error |
| Backoff.WaitsDouble | crawler.py:103-112 | the waits are b, 2b, 4b, ...: each doubles the last |
| Backoff.CallsAfterWaits | crawler.py:103-112 | every wait but the last of a run that gives up is followed by another call; a run raises the back-off error exactly when it waited and its last wait doubled exceeds 3600 |
| Backoff.SustainedFailure | crawler.py:103-112 | under sustained failure the waits are b, 2b, ... and the search raises the back-off error after `AttemptsUntilLimit(b)` calls |
| Backoff.SustainedFailureFromOne | crawler.py:88-112 | from the default back-off 1, sustained failure makes 12 calls, waits 1, 2, ..., 2048 (4095 seconds in all) and raises |
| Backoff.CallsBounded | crawler.py:101-112 | no search makes more calls than sustained failure from the same back-off does |
| Backoff.CallsFromOneBounded | crawler.py:88-112 | from the default back-off 1, every search makes at most 12 calls |
| Backoff.FirstAttemptSuccess | crawler.py:114-120 | on first-attempt success nothing is slept and one call is made; result i is `tweet_to_dict` of returned tweet i, one for one and in order, with the keyword id, the tweet id and the timestamp copied |
| Backoff.FirstFailureNeverReturns | crawler.py:103-115 | if the first call raises, the search never returns results |
| Backoff.SuccessfulRetryDiscarded | crawler.py:112-115 | a retry that succeeds is still lost: the search raises the unassigned-`tweets` error after two calls |
| Backoff.SearchTestScenario | test/crawler_test.py:78-83 | the search test: one answer with the 'some text' payload for an English keyword gives one result with text 'some text' |
| Mongo.MongoController.AddCrawlTwitter | controller.py:29-36 | the store's `add_crawl_twitter`, called with the six fields, appends exactly one record carrying them |
| Crawler.TwitterApi.Search | crawler.py:102 | the n-th call answers `responses(n)`, and the request is logged with its query string, language and count |
| Crawler.TwitterCrawler.Normalise | crawler.py:114-118 | the `for` loop over the returned tweets computes exactly `MapTweets` |
| Crawler.TwitterCrawler.Search | crawler.py:88-120 | the loop returns the result of `SearchRec` and sleeps its waits; it makes its number of calls, each requesting the keyword string, the language and `limit` |
| Crawler.TwitterCrawler.StartStream | crawler.py:122-135 | a listener for the keyword saving into the given store is started, appended to the streams |
| Crawler.TwitterStreamListener.OnError | crawler.py:178-183 | `True` exactly for status 420, and no value otherwise |
| Crawler.TwitterStreamListener.OnData | crawler.py:154-176 | a limit notice saves nothing; any other event that packages is saved exactly once; one that does not package raises and saves nothing |
| Dispatch.Flatten | controller.py:70-73 | the two nested loops visit every keyword of every batch, and nothing else; their order is stated by the lemmas below |
| Dispatch.KeywordSearch | controller.py:76 | the search `run_full` makes for a keyword, `search(keyword, limit=10)` from the default back-off 1: it makes at most 12 calls |
| Dispatch.FlattenOrder | controller.py:66-72 | the keywords of the earlier batches come first, then batch i in its own order, then the later batches |
| Dispatch.CrawlRuns | controller.py:62-77 | the crawl runs at most one search per keyword; it searches every keyword unless one raised, and every search but the last succeeded |
| Dispatch.CrawlStep | controller.py:72-77 | one more keyword after a crawl that has not stopped adds one search, whose first call follows the earlier calls |
| Dispatch.RunSnoc | controller.py:75-77 | one more search adds its results after the saved ones, its calls to the calls and its requests after the requests; the crawl's outcome is its exception, if any |
| Dispatch.CrawlAdvance | controller.py:72-77 | one step of the loop: a search that succeeds leaves a crawl that goes on, with its results saved; one that raises ends the crawl of all the keywords, with that exception |
| Dispatch.CrawlRunsPrefix | controller.py:62-77 | the searches over a prefix of the keywords are a prefix of those over all of them; once that prefix stopped, nothing more is searched |
| Dispatch.CrawlRunsAt | controller.py:72-75 | keyword i is searched from back-off 1, its first call right after those of the keywords before it |
| Dispatch.NoIsolation | controller.py:62-77 | once keyword i raises, the crawl ends with that exception and no later keyword is searched |
| Dispatch.CompleteCrawl | controller.py:62-77 | the crawl ends without an exception exactly when every keyword was searched successfully |
| Dispatch.SavedCount | controller.py:75-77 | the number of saved results is the sum of the keywords' result counts |
| Dispatch.SavedInKeywordOrder | controller.py:75-77 | keyword i's results are saved after those of the keywords before it and before those after it |
| Dispatch.UnsupportedSecondKeyword | controller.py:62-77 | with three keywords whose second has an unsupported language, the first is saved, the crawl raises the language error, and the third is never searched |
| Dispatch.SubscriptionsAt | controller.py:42-44 | one stream per keyword, in order, all saving into the same store |
| Dispatch.SubscriptionsAppend | controller.py:46-60 | the streams for two keyword lists in turn are those of the first followed by those of the second |
| Control.Controller.SaveTweet | controller.py:23-36 | one `add_crawl_twitter` call saves the result with its six fields in order |
| Control.Controller.SaveTweets | controller.py:38-40 | the results are saved one call each, in list order |
| Control.Controller.EnableStreams | controller.py:42-44 | one stream per keyword is started, in order, with this controller's store |
| Control.Controller.StreamBatch | controller.py:55-60 | the inner loop of `run_streaming` starts one stream per keyword of the batch, in order |
| Control.Controller.RunStreaming | controller.py:46-60 | the streams started are one per keyword of the flattened cursor, in order |
| Control.Controller.CrawlBatch | controller.py:70-77 | the inner loop over one batch either leaves a crawl that goes on over the batch's keywords, or ends the crawl of all the keywords at the first exception |
| Control.Controller.RunFull | controller.py:62-77 | the outcome, the saved records, the number of search calls and the requests are exactly those of `CrawlRuns` over the flattened cursor |

## Left out

- Credential loading from the environment and the OAuth handshake (crawler.py:24-37) are I/O. The search service is a given object instead.
- The real network calls, and the tweepy stream started with `is_async=True` (crawler.py:131-135), are left out. The stream runs on its own thread; the model only records which listener was subscribed.
- `sleep`, `DEFAULT_LOGGER.log` and `print` only have side effects. The sleeps are kept as the ghost list of waits.
- The `json.loads(json.dumps(...))` round trip (crawler.py:116) and the `json.loads` in `on_data` (crawler.py:158) are taken as the identity. Payloads arrive already decoded.
- Only the payload keys the code reads are modelled, each as an `Option`. When present, a value is assumed to have the expected JSON type.
- `common.mongo.controller.MongoController` is not part of this model. Its cursor, `bson.decode_all` and `Keyword.mongo_result_to_keyword` are replaced by a given list of keyword batches. Its `add_crawl_twitter` becomes a ghost log of records, and store failures are not modelled.
- `tasks.py` and `run.py` are left out as task and command-line plumbing. `tasks.py` calls a controller method that `controller.py` does not define.
- Crawler.TwitterApi.Search: the oracle's answer depends only on how many calls came before, not on the query's arguments. The arguments are logged in `queries`, not used.
- Crawler.TwitterCrawler.Search: requires a positive back-off time. With 0 the code's doubling never reaches the limit, so under sustained failure it would recurse until Python's recursion limit and raise `RecursionError`. Every caller uses the default of 1.
- Crawler.TwitterApi.Search: the service raising any exception is modelled as one outcome, `RateLimited`, as the bare `except:` treats every exception the same.
- Crawler.TwitterStreamListener.OnData: the return value of the logger for a limit notice, and `None` after a save, are both modelled as `Pass`.
