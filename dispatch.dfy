/**
 * The meaning of the controller's full crawl (`Controller.run_full`) and of its stream
 * start-up (`run_streaming`), over the keywords of the batched cursor taken in order.
 */
module Dispatch {
  import opened Wrappers
  import opened Tweets
  import opened Backoff

  /** The `limit` the full crawl passes to every search. */
  const SearchLimit: nat := 10

  /** The back-off time every search starts with (the default of `search`). */
  const InitialBackOff: nat := 1

  /**
   * The keywords of a batched cursor: batch after batch, each batch in its own order.
   * Every keyword of every batch is visited, and nothing else.
   */
  function Flatten(batches: seq<seq<Keyword>>): (keywords: seq<Keyword>)
    ensures forall i, k :: 0 <= i < |batches| && k in batches[i] ==> k in keywords
    ensures forall k :: k in keywords ==> exists i :: 0 <= i < |batches| && k in batches[i]
  {
    if batches == [] then []
    else
      var rest := Flatten(batches[1..]);
      assert forall i :: 1 <= i < |batches| ==> batches[i] == batches[1..][i - 1];
      batches[0] + rest
  }

  lemma {:induction false} FlattenAppend(a: seq<seq<Keyword>>, b: seq<seq<Keyword>>)
    ensures Flatten(a + b) == Flatten(a) + Flatten(b)
  {
    if a != [] {
      assert (a + b)[1..] == a[1..] + b;
      FlattenAppend(a[1..], b);
    } else {
      assert a + b == b;
    }
  }

  lemma FlattenSnoc(batches: seq<seq<Keyword>>, i: nat)
    requires i < |batches|
    ensures Flatten(batches[..i + 1]) == Flatten(batches[..i]) + batches[i]
  {
    assert batches[..i + 1] == batches[..i] + [batches[i]];
    FlattenAppend(batches[..i], [batches[i]]);
    assert [batches[i]][1..] == [];
  }

  /**
   * Batch order: the keywords of the earlier batches come first, then batch i in its
   * own order, then the keywords of the later batches.
   */
  lemma FlattenOrder(batches: seq<seq<Keyword>>, i: nat)
    requires i < |batches|
    ensures Flatten(batches) == Flatten(batches[..i]) + batches[i] + Flatten(batches[i + 1..])
  {
    assert batches == batches[..i] + batches[i..];
    FlattenAppend(batches[..i], batches[i..]);
    assert batches[i..][1..] == batches[i + 1..];
    var before, after := Flatten(batches[..i]), Flatten(batches[i + 1..]);
    assert before + batches[i] + after == before + (batches[i] + after);
  }

  /** The last run raised, so the crawl stopped. */
  predicate Stopped(runs: seq<SearchRun>) {
    runs != [] && runs[|runs| - 1].result.Failure?
  }

  /** The number of search calls of all the runs. */
  function TotalCalls(runs: seq<SearchRun>): nat {
    if runs == [] then 0 else TotalCalls(runs[..|runs| - 1]) + runs[|runs| - 1].calls
  }

  /** The results the runs saved, in order (a run that raised saved nothing). */
  function Saved(runs: seq<SearchRun>): seq<TwitterResult> {
    if runs == [] then []
    else
      var last := runs[|runs| - 1];
      Saved(runs[..|runs| - 1]) + (if last.result.Success? then last.result.value else [])
  }

  /** The search requests of the runs: run i searches keyword i, once per call. */
  function Queries(keywords: seq<Keyword>, runs: seq<SearchRun>): seq<Query>
    requires |runs| <= |keywords|
  {
    if runs == [] then []
    else
      var k := keywords[|runs| - 1];
      Queries(keywords, runs[..|runs| - 1]) + Repeat(Query(k.keywordString, k.language, SearchLimit), runs[|runs| - 1].calls)
  }

  /** How the crawl ends: with the exception of the run that raised, if any. */
  function CrawlOutcome(runs: seq<SearchRun>): Outcome<Error> {
    if Stopped(runs) then Fail(runs[|runs| - 1].result.error) else Pass
  }

  /**
   * The search the full crawl makes for keyword `k` when its first call is call number
   * `m`: `search(keyword, limit=10)` from back-off 1. It makes at most 12 calls.
   */
  function KeywordSearch(languages: set<string>, responses: nat -> ApiOutcome): (search: (Keyword, nat) -> SearchRun)
    ensures forall k, m :: search(k, m).calls <= 12
  {
    CallsFromOneBounded(languages, responses);
    (k: Keyword, m: nat) => SearchRec(languages, k, InitialBackOff, responses, m)
  }

  /**
   * The searches the full crawl runs over `keywords`, the first search call being call
   * number `n`: one per keyword in order, each from back-off 1, until one raises.
   */
  function CrawlRuns(search: (Keyword, nat) -> SearchRun, n: nat, keywords: seq<Keyword>): (runs: seq<SearchRun>)
    ensures |runs| <= |keywords|
    ensures !Stopped(runs) ==> |runs| == |keywords|
    ensures forall i :: 0 <= i < |runs| - 1 ==> runs[i].result.Success?
  {
    if keywords == [] then []
    else
      var before := CrawlRuns(search, n, keywords[..|keywords| - 1]);
      if Stopped(before) then before
      else before + [search(keywords[|keywords| - 1], n + TotalCalls(before))]
  }

  /** The stream subscriptions the stream start-up makes: one per keyword, in order. */
  function Subscriptions<M>(keywords: seq<Keyword>, mongo: M): seq<(Keyword, M)> {
    if keywords == [] then []
    else Subscriptions(keywords[..|keywords| - 1], mongo) + [(keywords[|keywords| - 1], mongo)]
  }

  // ---------------------------------------------------------------------------
  // Properties of the full crawl
  // ---------------------------------------------------------------------------

  /** One more keyword after a crawl that has not stopped: one more run, from the next call. */
  lemma CrawlStep(search: (Keyword, nat) -> SearchRun, n: nat, done: seq<Keyword>, k: Keyword)
    requires !Stopped(CrawlRuns(search, n, done))
    ensures var before := CrawlRuns(search, n, done);
            CrawlRuns(search, n, done + [k])
            == before + [search(k, n + TotalCalls(before))]
  {
    assert (done + [k])[..|done|] == done;
  }

  /** Keyword j of a batch that continues the prefix `done` of `all`. */
  lemma BatchPosition(all: seq<Keyword>, done: seq<Keyword>, batch: seq<Keyword>, j: nat)
    requires |done| + |batch| <= |all| && all[..|done| + |batch|] == done + batch && j < |batch|
    ensures var d := done + batch[..j];
            && |d| < |all| && all[|d|] == batch[j]
            && all[..|d| + 1] == d + [batch[j]] == done + batch[..j + 1]
  {
    var d := done + batch[..j];
    assert all[|d|] == (done + batch)[|d|];
    assert all[..|d| + 1] == (done + batch)[..|d| + 1];
    assert batch[..j + 1] == batch[..j] + [batch[j]];
  }

  /**
   * Associativity of concatenation, as a lemma: applied to the large terms of the crawl
   * proofs it costs the solver one instantiation, where an inline assertion does not fit.
   */
  lemma AppendAssoc<T>(a: seq<T>, b: seq<T>, c: seq<T>)
    ensures a + b + c == a + (b + c)
  {
  }

  /** The bookkeeping of one more run: its results, calls and requests come after the others'. */
  lemma RunSnoc(keywords: seq<Keyword>, runs: seq<SearchRun>, run: SearchRun)
    requires |runs| < |keywords|
    ensures var k := keywords[|runs|];
            && Saved(runs + [run]) == Saved(runs) + (if run.result.Success? then run.result.value else [])
            && TotalCalls(runs + [run]) == TotalCalls(runs) + run.calls
            && Queries(keywords, runs + [run]) == Queries(keywords, runs) + Repeat(Query(k.keywordString, k.language, SearchLimit), run.calls)
            && CrawlOutcome(runs + [run]) == (if run.result.Success? then Pass else Fail(run.result.error))
  {
    assert (runs + [run])[..|runs|] == runs;
  }

  /**
   * The crawl has searched the keywords `done`, a prefix of `all`, without an exception,
   * from call number `n0`; `records`, `calls` and `queries` are exactly its effects on
   * top of `records0`, `n0` and `queries0`.
   */
  predicate CrawledUpTo(search: (Keyword, nat) -> SearchRun, all: seq<Keyword>, done: seq<Keyword>, n0: nat,
                        records0: seq<TwitterResult>, queries0: seq<Query>,
                        records: seq<TwitterResult>, calls: nat, queries: seq<Query>)
  {
    && |done| <= |all| && all[..|done|] == done
    && var runs := CrawlRuns(search, n0, done);
       && !Stopped(runs) && |runs| == |done|
       && records == records0 + Saved(runs)
       && calls == n0 + TotalCalls(runs)
       && queries == queries0 + Queries(all, runs)
  }

  /** The crawl of all of `all` is over with outcome `r`, and the effects are exactly its own. */
  predicate CrawledAll(search: (Keyword, nat) -> SearchRun, all: seq<Keyword>, n0: nat,
                       records0: seq<TwitterResult>, queries0: seq<Query>,
                       records: seq<TwitterResult>, calls: nat, queries: seq<Query>, r: Outcome<Error>)
  {
    var runs := CrawlRuns(search, n0, all);
    && r == CrawlOutcome(runs)
    && records == records0 + Saved(runs)
    && calls == n0 + TotalCalls(runs)
    && queries == queries0 + Queries(all, runs)
  }

  /**
   * One step of the crawl loop: keyword j of the batch that continues `done` is searched
   * from the next call; its results are saved and the crawl goes on, or its exception
   * ends the crawl of all the keywords there.
   */
  lemma CrawlAdvance(search: (Keyword, nat) -> SearchRun, all: seq<Keyword>, done: seq<Keyword>, batch: seq<Keyword>, j: nat,
                     n0: nat, records0: seq<TwitterResult>, queries0: seq<Query>,
                     records: seq<TwitterResult>, calls: nat, queries: seq<Query>)
    requires |done| + |batch| <= |all| && all[..|done| + |batch|] == done + batch && j < |batch|
    requires CrawledUpTo(search, all, done + batch[..j], n0, records0, queries0, records, calls, queries)
    ensures var k := batch[j];
            var run := search(k, calls);
            var queries' := queries + Repeat(Query(k.keywordString, k.language, SearchLimit), run.calls);
            && (run.result.Success? ==>
                  CrawledUpTo(search, all, done + batch[..j + 1], n0, records0, queries0,
                              records + run.result.value, calls + run.calls, queries'))
            && (run.result.Failure? ==>
                  CrawledAll(search, all, n0, records0, queries0, records, calls + run.calls, queries', Fail(run.result.error)))
  {
    var k := batch[j];
    var run := search(k, calls);
    NextRuns(search, all, done, batch, j, n0, calls);
    if run.result.Failure? {
      AdvanceStopped(search, all, done + batch[..j], n0, records0, queries0, records, calls, queries);
    } else {
      var runs := CrawlRuns(search, n0, done + batch[..j]);
      RunSnoc(all, runs, run);
      var asked := Repeat(Query(k.keywordString, k.language, SearchLimit), run.calls);
      AppendAssoc(records0, Saved(runs), run.result.value);
      AppendAssoc(queries0, Queries(all, runs), asked);
    }
  }

  /** The runs after keyword j of the batch: one more, started at the next call. */
  lemma NextRuns(search: (Keyword, nat) -> SearchRun, all: seq<Keyword>, done: seq<Keyword>, batch: seq<Keyword>, j: nat,
                 n0: nat, calls: nat)
    requires |done| + |batch| <= |all| && all[..|done| + |batch|] == done + batch && j < |batch|
    requires var runs := CrawlRuns(search, n0, done + batch[..j]); !Stopped(runs) && calls == n0 + TotalCalls(runs)
    ensures |done + batch[..j]| < |all| && all[|done + batch[..j]|] == batch[j]
    ensures all[..|done + batch[..j]| + 1] == done + batch[..j + 1]
    ensures CrawlRuns(search, n0, done + batch[..j + 1]) == CrawlRuns(search, n0, done + batch[..j]) + [search(batch[j], calls)]
  {
    var d := done + batch[..j];
    BatchPosition(all, done, batch, j);
    CrawlStep(search, n0, d, batch[j]);
  }

  /** The failure case of `CrawlAdvance`: the crawl of all the keywords ends with the next one. */
  lemma AdvanceStopped(search: (Keyword, nat) -> SearchRun, all: seq<Keyword>, d: seq<Keyword>,
                       n0: nat, records0: seq<TwitterResult>, queries0: seq<Query>,
                       records: seq<TwitterResult>, calls: nat, queries: seq<Query>)
    requires |d| < |all| && CrawledUpTo(search, all, d, n0, records0, queries0, records, calls, queries)
    requires search(all[|d|], calls).result.Failure?
    ensures var k := all[|d|];
            var run := search(k, calls);
            var queries' := queries + Repeat(Query(k.keywordString, k.language, SearchLimit), run.calls);
            CrawledAll(search, all, n0, records0, queries0, records, calls + run.calls, queries', Fail(run.result.error))
  {
    var k := all[|d|];
    var runs := CrawlRuns(search, n0, d);
    var run := search(k, calls);
    var after := runs + [run];
    assert all[..|d| + 1] == d + [k];
    CrawlStep(search, n0, d, k);
    RunSnoc(all, runs, run);
    var asked := Repeat(Query(k.keywordString, k.language, SearchLimit), run.calls);
    AppendAssoc(queries0, Queries(all, runs), asked);
    StoppedAt(search, n0, all, |d| + 1, after);
    assert Saved(runs) + [] == Saved(runs);
  }

  /** A crawl that stops within the first m keywords is over there. */
  lemma StoppedAt(search: (Keyword, nat) -> SearchRun, n: nat, keywords: seq<Keyword>, m: nat, runs: seq<SearchRun>)
    requires m <= |keywords| && CrawlRuns(search, n, keywords[..m]) == runs && Stopped(runs)
    ensures CrawlRuns(search, n, keywords) == runs
  {
    CrawlRunsPrefix(search, n, keywords, m);
  }

  /** The runs over a prefix of the keywords are a prefix of the runs over all of them. */
  lemma {:induction false} CrawlRunsPrefix(search: (Keyword, nat) -> SearchRun, n: nat, keywords: seq<Keyword>, j: nat)
    requires j <= |keywords|
    ensures var all := CrawlRuns(search, n, keywords);
            var pre := CrawlRuns(search, n, keywords[..j]);
            |pre| <= |all| && all[..|pre|] == pre && (!Stopped(pre) ==> |pre| == j)
            && (Stopped(pre) ==> all == pre)
    decreases |keywords|
  {
    var all := CrawlRuns(search, n, keywords);
    if j == |keywords| {
      assert keywords[..j] == keywords;
    } else {
      var init := keywords[..|keywords| - 1];
      assert init[..j] == keywords[..j];
      CrawlRunsPrefix(search, n, init, j);
    }
  }

  /**
   * Keyword i is searched, if the crawl gets that far, with back-off 1 and its first call
   * right after the calls of the keywords before it.
   */
  lemma {:induction false} CrawlRunsAt(search: (Keyword, nat) -> SearchRun, n: nat, keywords: seq<Keyword>, i: nat)
    requires i < |CrawlRuns(search, n, keywords)|
    ensures var runs := CrawlRuns(search, n, keywords);
            runs[i] == search(keywords[i], n + TotalCalls(runs[..i]))
    decreases |keywords|
  {
    var runs := CrawlRuns(search, n, keywords);
    var init := keywords[..|keywords| - 1];
    var before := CrawlRuns(search, n, init);
    if Stopped(before) {
      assert runs == before;
      CrawlRunsAt(search, n, init, i);
      assert init[i] == keywords[i];
    } else {
      var last := search(keywords[|keywords| - 1], n + TotalCalls(before));
      assert runs == before + [last];
      if i < |before| {
        CrawlRunsAt(search, n, init, i);
        assert init[i] == keywords[i];
        assert runs[..i] == before[..i];
      } else {
        assert i == |before| == |init|;
        assert runs[..i] == before;
      }
    }
  }

  /**
   * No isolation between keywords: once keyword i raises, the crawl ends with that
   * exception and the keywords after it are never searched.
   */
  lemma NoIsolation(search: (Keyword, nat) -> SearchRun, n: nat, keywords: seq<Keyword>, i: nat)
    requires i < |CrawlRuns(search, n, keywords)|
    requires CrawlRuns(search, n, keywords)[i].result.Failure?
    ensures var runs := CrawlRuns(search, n, keywords);
            |runs| == i + 1 && CrawlOutcome(runs) == Fail(runs[i].result.error)
  {
  }

  /** Every keyword is searched exactly when no search raises. */
  lemma CompleteCrawl(search: (Keyword, nat) -> SearchRun, n: nat, keywords: seq<Keyword>)
    ensures var runs := CrawlRuns(search, n, keywords);
            CrawlOutcome(runs) == Pass <==> |runs| == |keywords| && forall i :: 0 <= i < |runs| ==> runs[i].result.Success?
  {
  }

  /** The sum of the numbers of results of the runs. */
  function ResultCount(runs: seq<SearchRun>): nat {
    if runs == [] then 0
    else
      var last := runs[|runs| - 1];
      ResultCount(runs[..|runs| - 1]) + (if last.result.Success? then |last.result.value| else 0)
  }

  /** The crawl saves as many results as the keywords' searches returned, together. */
  lemma {:induction false} SavedCount(runs: seq<SearchRun>)
    ensures |Saved(runs)| == ResultCount(runs)
  {
    if runs != [] {
      SavedCount(runs[..|runs| - 1]);
    }
  }

  /**
   * The results of keyword i are saved right after those of the keywords before it and
   * before those of the keywords after it.
   */
  lemma {:induction false} SavedInKeywordOrder(runs: seq<SearchRun>, i: nat)
    requires i < |runs| && runs[i].result.Success?
    ensures Saved(runs) == Saved(runs[..i]) + runs[i].result.value + Saved(runs[i + 1..])
    decreases |runs|
  {
    if i + 1 == |runs| {
      assert runs[..|runs| - 1] == runs[..i];
      assert runs[i + 1..] == [];
    } else {
      var init := runs[..|runs| - 1];
      assert init[..i] == runs[..i];
      SavedInKeywordOrder(init, i);
      assert init[i + 1..] == runs[i + 1..|runs| - 1];
      assert runs[i + 1..][..|runs[i + 1..]| - 1] == runs[i + 1..|runs| - 1];
    }
  }

  /**
   * Three keywords whose second has an unsupported language: the first is searched and
   * saved, the crawl then raises, and the third is never searched.
   */
  lemma UnsupportedSecondKeyword(languages: set<string>, responses: nat -> ApiOutcome, n: nat, k1: Keyword, k2: Keyword, k3: Keyword)
    requires SearchRec(languages, k1, InitialBackOff, responses, n).result.Success?
    requires k2.language !in languages
    ensures var search := KeywordSearch(languages, responses);
            var runs := CrawlRuns(search, n, [k1, k2, k3]);
            var first := SearchRec(languages, k1, InitialBackOff, responses, n);
            && runs == [first, SearchRun(Failure(UnsupportedLanguage(k2.language)), [], 0)]
            && CrawlOutcome(runs) == Fail(UnsupportedLanguage(k2.language))
            && Saved(runs) == first.result.value
            && TotalCalls(runs) == first.calls
  {
    var search := KeywordSearch(languages, responses);
    var first := search(k1, n);
    assert first == SearchRec(languages, k1, InitialBackOff, responses, n);
    assert search(k2, n + first.calls) == SearchRun(Failure(UnsupportedLanguage(k2.language)), [], 0);
    assert [k1, k2, k3][..2] == [k1, k2];
    assert [k1, k2][..1] == [k1];
    assert [k1][..0] == [];
    assert CrawlRuns(search, n, [k1]) == [first];
    var two := [first, SearchRun(Failure(UnsupportedLanguage(k2.language)), [], 0)];
    assert two[..1] == [first];
    assert Saved(two) == Saved([first]);
    assert [first][..0] == [];
    assert Saved([first]) == first.result.value;
  }

  // ---------------------------------------------------------------------------
  // Properties of the stream start-up
  // ---------------------------------------------------------------------------

  /** One subscription per keyword, in order, all with the same store. */
  lemma {:induction false} SubscriptionsAt<M>(keywords: seq<Keyword>, mongo: M)
    ensures |Subscriptions(keywords, mongo)| == |keywords|
    ensures forall i :: 0 <= i < |keywords| ==> Subscriptions(keywords, mongo)[i] == (keywords[i], mongo)
  {
    if keywords != [] {
      SubscriptionsAt(keywords[..|keywords| - 1], mongo);
    }
  }

  lemma SubscriptionsSnoc<M>(keywords: seq<Keyword>, k: Keyword, mongo: M)
    ensures Subscriptions(keywords + [k], mongo) == Subscriptions(keywords, mongo) + [(k, mongo)]
    ensures Subscriptions([k], mongo) == [(k, mongo)]
  {
    assert (keywords + [k])[..|keywords|] == keywords;
    assert [k][..0] == [];
  }

  lemma {:induction false} SubscriptionsAppend<M>(a: seq<Keyword>, b: seq<Keyword>, mongo: M)
    ensures Subscriptions(a + b, mongo) == Subscriptions(a, mongo) + Subscriptions(b, mongo)
    decreases |b|
  {
    if b != [] {
      var b' := b[..|b| - 1];
      assert (a + b)[..|a + b| - 1] == a + b';
      SubscriptionsAppend(a, b', mongo);
      assert b[..|b| - 1] == b';
    } else {
      assert a + b == a;
    }
  }
}
