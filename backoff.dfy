/**
 * The meaning of `TwitterCrawler.search`: the language precondition, the recursive
 * exponential back-off as the code writes it, and the mapping of the returned
 * tweets through `tweet_to_dict`.
 *
 * The search service is an oracle `responses`: `responses(n)` is the answer to the
 * n-th search call made over the crawler's lifetime.
 */
module Backoff {
  import opened Wrappers
  import opened Tweets

  /** One answer of the search service: an exception (rate limit, network), or tweets. */
  datatype ApiOutcome = RateLimited | Found(items: seq<RawTweet>)

  /** One request to the search service: the query string, the language and the count asked for. */
  datatype Query = Query(keywordString: string, language: string, count: nat)

  /** `count` copies of `q`. */
  function Repeat(q: Query, count: nat): (s: seq<Query>)
    ensures |s| == count && forall i :: 0 <= i < count ==> s[i] == q
  {
    if count == 0 then [] else [q] + Repeat(q, count - 1)
  }

  lemma RepeatOneMore(q: Query, count: nat)
    ensures Repeat(q, count + 1) == Repeat(q, count) + [q]
  {
  }

  /** What one call of `search` does: its result, the waits it slept, the calls it made. */
  datatype SearchRun = SearchRun(result: Result<seq<TwitterResult>, Error>, waits: seq<nat>, calls: nat)

  /** The back-off time beyond which the search gives up (60 * 60 seconds). */
  const BackOffLimit: nat := 60 * 60

  /**
   * The `for` loop over the returned tweets: each is packaged in order; the first
   * `KeyError` aborts the loop.
   */
  function MapTweets(k: Keyword, items: seq<RawTweet>): (r: Result<seq<TwitterResult>, Error>)
    ensures r.Success? <==> forall i :: 0 <= i < |items| ==> TweetToDict(k, items[i]).Success?
    ensures r.Failure? ==> r.error.MissingKey?
    ensures r.Success? ==> |r.value| == |items|
    ensures r.Success? ==> forall i :: 0 <= i < |items| ==> Success(r.value[i]) == TweetToDict(k, items[i])
    ensures r.Failure? ==>
              exists i :: 0 <= i < |items| && TweetToDict(k, items[i]) == Failure(r.error)
                          && forall j :: 0 <= j < i ==> TweetToDict(k, items[j]).Success?
    decreases |items|
  {
    if items == [] then Success([])
    else
      match TweetToDict(k, items[0])
      case Failure(e) => Failure(e)
      case Success(d) =>
        match MapTweets(k, items[1..])
        case Failure(e) =>
          assert forall j :: 1 <= j < |items| ==> items[j] == items[1..][j - 1];
          Failure(e)
        case Success(rest) =>
          assert forall j :: 1 <= j < |items| ==> items[j] == items[1..][j - 1];
          Success([d] + rest)
  }

  /** The first tweet that cannot be packaged decides the exception. */
  lemma {:induction false} MapTweetsFirstFailure(k: Keyword, items: seq<RawTweet>, i: nat)
    requires i < |items| && TweetToDict(k, items[i]).Failure?
    requires forall j :: 0 <= j < i ==> TweetToDict(k, items[j]).Success?
    ensures MapTweets(k, items) == Failure(TweetToDict(k, items[i]).error)
  {
    if i > 0 {
      assert TweetToDict(k, items[0]).Success?;
      assert forall j :: 0 <= j < i - 1 ==> items[1..][j] == items[j + 1];
      MapTweetsFirstFailure(k, items[1..], i - 1);
    }
  }

  /**
   * What an enclosing call makes of the result of its retry: the retry's return value
   * is dropped and `tweets` is then read unassigned, so only an exception survives.
   */
  function Discard(r: Result<seq<TwitterResult>, Error>): (d: Result<seq<TwitterResult>, Error>)
    ensures d.Failure?
    ensures r.Failure? ==> d == r
    ensures r.Success? ==> d == Failure(TweetsUnbound)
  {
    if r.Failure? then r else Failure(TweetsUnbound)
  }

  /**
   * `search(keyword, back_off_time)` with the first search call being call number `n`,
   * written as the code writes it: recursively, with the retry's result discarded.
   */
  function SearchRec(languages: set<string>, k: Keyword, backOff: nat, responses: nat -> ApiOutcome, n: nat): SearchRun
    requires backOff > 0
    decreases if backOff > BackOffLimit then 0 else BackOffLimit + 1 - backOff
  {
    if k.language !in languages then
      SearchRun(Failure(UnsupportedLanguage(k.language)), [], 0)
    else
      match responses(n)
      case Found(items) => SearchRun(MapTweets(k, items), [], 1)
      case RateLimited =>
        if 2 * backOff > BackOffLimit then
          SearchRun(Failure(BackOffLimitExceeded), [backOff], 1)
        else
          var retry := SearchRec(languages, k, 2 * backOff, responses, n + 1);
          SearchRun(Discard(retry.result), [backOff] + retry.waits, 1 + retry.calls)
  }

  /** 2 to the power `i`. */
  function Pow2(i: nat): (p: nat)
    ensures p >= 1
  {
    if i == 0 then 1 else 2 * Pow2(i - 1)
  }

  /** The geometric sequence b, 2b, 4b, ... of `count` terms. */
  function Doublings(b: nat, count: nat): (s: seq<nat>)
    ensures |s| == count
    decreases count
  {
    if count == 0 then [] else [b] + Doublings(2 * b, count - 1)
  }

  /** The number of search calls made under sustained failure, starting at back-off `b`. */
  function AttemptsUntilLimit(b: nat): (a: nat)
    requires b > 0
    ensures a >= 1
    decreases if b > BackOffLimit then 0 else BackOffLimit + 1 - b
  {
    if 2 * b > BackOffLimit then 1 else 1 + AttemptsUntilLimit(2 * b)
  }

  function Sum(s: seq<nat>): nat {
    if s == [] then 0 else s[0] + Sum(s[1..])
  }

  // ---------------------------------------------------------------------------
  // Language precondition
  // ---------------------------------------------------------------------------

  /** An unsupported language raises before any search call is made. */
  lemma UnsupportedLanguageRaisesFirst(languages: set<string>, k: Keyword, b: nat, responses: nat -> ApiOutcome, n: nat)
    requires b > 0 && k.language !in languages
    ensures SearchRec(languages, k, b, responses, n) == SearchRun(Failure(UnsupportedLanguage(k.language)), [], 0)
  {
  }

  /** A supported language never raises the language error, and at least one call is made. */
  lemma {:induction false} SupportedLanguageCalls(languages: set<string>, k: Keyword, b: nat, responses: nat -> ApiOutcome, n: nat)
    requires b > 0 && k.language in languages
    ensures SearchRec(languages, k, b, responses, n).calls >= 1
    ensures SearchRec(languages, k, b, responses, n).result != Failure(UnsupportedLanguage(k.language))
    decreases if b > BackOffLimit then 0 else BackOffLimit + 1 - b
  {
    if responses(n).RateLimited? && 2 * b <= BackOffLimit {
      SupportedLanguageCalls(languages, k, 2 * b, responses, n + 1);
    }
  }

  // ---------------------------------------------------------------------------
  // Back-off
  // ---------------------------------------------------------------------------

  /** The i-th term of `Doublings(b, count)` is b * 2^i. */
  lemma {:induction false} DoublingsAt(b: nat, count: nat, i: nat)
    requires i < count
    ensures Doublings(b, count)[i] == b * Pow2(i)
    decreases count
  {
    if i > 0 {
      DoublingsAt(2 * b, count - 1, i - 1);
      assert Doublings(b, count)[i] == Doublings(2 * b, count - 1)[i - 1];
      var p := Pow2(i - 1);
      assert Pow2(i) == 2 * p;
      assert (2 * b) * p == b * (2 * p);
    }
  }

  /** With a supported language the waits are b, 2b, 4b, ...: each wait doubles the last. */
  lemma {:induction false} WaitsDouble(languages: set<string>, k: Keyword, b: nat, responses: nat -> ApiOutcome, n: nat)
    requires b > 0
    ensures var run := SearchRec(languages, k, b, responses, n);
            run.waits == Doublings(b, |run.waits|)
    decreases if b > BackOffLimit then 0 else BackOffLimit + 1 - b
  {
    if k.language in languages && responses(n).RateLimited? && 2 * b <= BackOffLimit {
      WaitsDouble(languages, k, 2 * b, responses, n + 1);
    }
  }

  /**
   * Every wait is followed by one more call, except the last wait of a run that gives up:
   * the calls stop on an answer or once the doubled back-off exceeds the limit.
   */
  lemma {:induction false} CallsAfterWaits(languages: set<string>, k: Keyword, b: nat, responses: nat -> ApiOutcome, n: nat)
    requires b > 0 && k.language in languages
    ensures var run := SearchRec(languages, k, b, responses, n);
            && run.calls == |run.waits| + (if run.result == Failure(BackOffLimitExceeded) then 0 else 1)
            && (run.result == Failure(BackOffLimitExceeded) <==>
                  |run.waits| > 0 && 2 * run.waits[|run.waits| - 1] > BackOffLimit)
            && (forall i :: 0 <= i < |run.waits| - 1 ==> 2 * run.waits[i] <= BackOffLimit)
    decreases if b > BackOffLimit then 0 else BackOffLimit + 1 - b
  {
    var run := SearchRec(languages, k, b, responses, n);
    if responses(n).RateLimited? && 2 * b <= BackOffLimit {
      var retry := SearchRec(languages, k, 2 * b, responses, n + 1);
      CallsAfterWaits(languages, k, 2 * b, responses, n + 1);
      SupportedLanguageCalls(languages, k, 2 * b, responses, n + 1);
      assert run.waits == [b] + retry.waits;
      assert |retry.waits| > 0 ==> retry.waits[0] == 2 * b by {
        WaitsDouble(languages, k, 2 * b, responses, n + 1);
      }
      assert forall i :: 1 <= i < |run.waits| ==> run.waits[i] == retry.waits[i - 1];
    }
  }

  /** Under sustained failure the waits are b, 2b, 4b, ... and the call raises at the limit. */
  lemma {:induction false} SustainedFailure(languages: set<string>, k: Keyword, b: nat, responses: nat -> ApiOutcome, n: nat)
    requires b > 0 && k.language in languages
    requires forall m :: n <= m ==> responses(m) == RateLimited
    ensures SearchRec(languages, k, b, responses, n)
            == SearchRun(Failure(BackOffLimitExceeded), Doublings(b, AttemptsUntilLimit(b)), AttemptsUntilLimit(b))
    decreases if b > BackOffLimit then 0 else BackOffLimit + 1 - b
  {
    assert responses(n) == RateLimited;
    if 2 * b <= BackOffLimit {
      SustainedFailure(languages, k, 2 * b, responses, n + 1);
    }
  }

  /**
   * Starting at 1 (the default), sustained failure makes exactly 12 calls, sleeps
   * 1, 2, 4, ..., 2048 seconds (4095 in all) and then raises.
   */
  lemma SustainedFailureFromOne(languages: set<string>, k: Keyword, responses: nat -> ApiOutcome, n: nat)
    requires k.language in languages
    requires forall m :: n <= m ==> responses(m) == RateLimited
    ensures var run := SearchRec(languages, k, 1, responses, n);
            && run.result == Failure(BackOffLimitExceeded)
            && run.calls == 12
            && run.waits == [1, 2, 4, 8, 16, 32, 64, 128, 256, 512, 1024, 2048]
            && Sum(run.waits) == 4095
  {
    SustainedFailure(languages, k, 1, responses, n);
    TwelveAttemptsFromOne();
    WaitsFromOne();
    SumOfWaitsFromOne();
  }

  /** No search makes more calls than sustained failure does. */
  lemma {:induction false} CallsBounded(languages: set<string>, k: Keyword, b: nat, responses: nat -> ApiOutcome, n: nat)
    requires b > 0
    ensures SearchRec(languages, k, b, responses, n).calls <= AttemptsUntilLimit(b)
    decreases if b > BackOffLimit then 0 else BackOffLimit + 1 - b
  {
    if k.language in languages && responses(n).RateLimited? && 2 * b <= BackOffLimit {
      CallsBounded(languages, k, 2 * b, responses, n + 1);
    }
  }

  /** From the default back-off 1, a search makes at most twelve calls. */
  lemma CallsFromOneBounded(languages: set<string>, responses: nat -> ApiOutcome)
    ensures forall k, n :: SearchRec(languages, k, 1, responses, n).calls <= 12
  {
    TwelveAttemptsFromOne();
    forall k, n
      ensures SearchRec(languages, k, 1, responses, n).calls <= 12
    {
      CallsBounded(languages, k, 1, responses, n);
    }
  }

  /** Starting at 1, sustained failure makes twelve calls. */
  lemma TwelveAttemptsFromOne()
    ensures AttemptsUntilLimit(1) == 12
  {
    assert AttemptsUntilLimit(2048) == 1;
    assert AttemptsUntilLimit(256) == 4;
    assert AttemptsUntilLimit(32) == 7;
    assert AttemptsUntilLimit(4) == 10;
  }

  /** The twelve waits from 1 are the powers of two up to 2048. */
  lemma WaitsFromOne()
    ensures Doublings(1, 12) == [1, 2, 4, 8, 16, 32, 64, 128, 256, 512, 1024, 2048]
  {
    var w := Doublings(1, 12);
    forall i | 0 <= i < 12
      ensures w[i] == Pow2(i)
    {
      DoublingsAt(1, 12, i);
    }
    assert Pow2(11) == 2048 && Pow2(10) == 1024 && Pow2(9) == 512 && Pow2(8) == 256;
    assert Pow2(7) == 128 && Pow2(6) == 64 && Pow2(5) == 32 && Pow2(4) == 16;
    assert Pow2(3) == 8 && Pow2(2) == 4 && Pow2(1) == 2 && Pow2(0) == 1;
  }

  /** The twelve waits add up to 4095 seconds. */
  lemma SumOfWaitsFromOne()
    ensures Sum([1, 2, 4, 8, 16, 32, 64, 128, 256, 512, 1024, 2048]) == 4095
  {
    var w: seq<nat> := [1, 2, 4, 8, 16, 32, 64, 128, 256, 512, 1024, 2048];
    assert Sum(w[11..]) == 2048;
    assert Sum(w[10..]) == 3072;
    assert Sum(w[9..]) == 3584;
    assert Sum(w[8..]) == 3840;
    assert Sum(w[7..]) == 3968;
    assert Sum(w[6..]) == 4032;
    assert Sum(w[5..]) == 4064;
    assert Sum(w[4..]) == 4080;
    assert Sum(w[3..]) == 4088;
    assert Sum(w[2..]) == 4092;
    assert Sum(w[1..]) == 4094;
  }

  // ---------------------------------------------------------------------------
  // Results
  // ---------------------------------------------------------------------------

  /**
   * On first-attempt success nothing is slept and the results are the returned tweets,
   * packaged one for one and in order, with the ids and timestamps copied verbatim.
   */
  lemma FirstAttemptSuccess(languages: set<string>, k: Keyword, b: nat, responses: nat -> ApiOutcome, n: nat)
    requires b > 0 && k.language in languages && responses(n).Found?
    requires MapTweets(k, responses(n).items).Success?
    ensures var run := SearchRec(languages, k, b, responses, n);
            var items := responses(n).items;
            && run.waits == [] && run.calls == 1 && run.result.Success?
            && |run.result.value| == |items|
            && forall i :: 0 <= i < |items| ==>
                 && run.result.value[i] == TweetToDict(k, items[i]).value
                 && run.result.value[i].keywordId == k.id
                 && Some(run.result.value[i].tweetId) == items[i].id
                 && Some(run.result.value[i].timestamp) == items[i].createdAt
                 && run.result.value[i].text == ResolveText(items[i])
  {
    var items := responses(n).items;
    var r := MapTweets(k, items);
    forall i | 0 <= i < |items|
      ensures r.value[i] == TweetToDict(k, items[i]).value
    {
      assert Success(r.value[i]) == TweetToDict(k, items[i]);
    }
  }

  /** If the first attempt fails, the call never returns results. */
  lemma FirstFailureNeverReturns(languages: set<string>, k: Keyword, b: nat, responses: nat -> ApiOutcome, n: nat)
    requires b > 0 && responses(n) == RateLimited
    ensures SearchRec(languages, k, b, responses, n).result.Failure?
  {
  }

  /**
   * Even a retry that succeeds and packages every tweet is lost: the enclosing call
   * reads `tweets` unassigned.
   */
  lemma SuccessfulRetryDiscarded(languages: set<string>, k: Keyword, b: nat, responses: nat -> ApiOutcome, n: nat)
    requires b > 0 && 2 * b <= BackOffLimit && k.language in languages
    requires responses(n) == RateLimited && responses(n + 1).Found?
    requires MapTweets(k, responses(n + 1).items).Success?
    ensures SearchRec(languages, k, b, responses, n) == SearchRun(Failure(TweetsUnbound), [b], 2)
  {
  }

  /**
   * The search test: one answer carrying the 'some text' payload, for an English keyword,
   * gives exactly one result whose text is 'some text'.
   */
  lemma SearchTestScenario(languages: set<string>, responses: nat -> ApiOutcome, n: nat, id: string)
    requires "en" in languages
    requires responses(n) == Found([RawTweet(None, Some("some text"), None, None, Some(1), false, Some(1), Some(0), Some("01:01:20"))])
    ensures var run := SearchRec(languages, Keyword(id, "some text", "en"), 1, responses, n);
            && run.result.Success? && |run.result.value| == 1
            && run.result.value[0].text == "some text"
  {
    var k := Keyword(id, "some text", "en");
    OnlyTopLevelFullText(k);
    var items := responses(n).items;
    assert MapTweets(k, items[1..]) == Success([]);
  }
}
