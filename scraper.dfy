/**
  `scrape_daterange` as the imperative loop it is: `attempt_srs` and `completion_srs`
  are arrays updated in place, `results_dict` is a map the loop reassigns. Every pass
  through the loop body is proved to perform one `Orchestrator.Step`, so the method
  returns exactly what `Orchestrator.Run` computes from `Orchestrator.Init`.
*/
module Scraper {
  import opened Wrappers
  import opened Times
  import opened Markets
  import opened Windows
  import opened Prices
  import opened Orchestrator

  /**
    What a run leaves behind: the returned series, the output file's name and content
    (`None` when it was never written), the final attempt counters and the number of
    requests sent.
  */
  datatype Report<P> = Report(
    series: Series<P>,
    fileName: string,
    written: Option<Series<P>>,
    attempts: seq<int>,
    requests: nat)

  /**
    Lines 142-169: query the window at index `i` and book the outcome. The counter of
    window `i` is the only array cell that changes.
  */
  method QueryWindow<P>(cfg: Config<P>, chunkStarts: seq<int>, attempts: array<int>, i: nat,
                        results: map<int, Series<P>>, result: Series<P>, requests: nat, ghost s: State<P>)
    returns (results': map<int, Series<P>>, result': Series<P>)
    requires chunkStarts == Starts(cfg) && Shaped(cfg, s) && s.i == i && i < |chunkStarts|
    requires s.attempts == attempts[..] && s.results == results && s.result == result && s.requests == requests
    requires attempts[i] >= 0
    modifies attempts
    ensures var f := Answer(cfg, s);
      && attempts[..] == s.attempts[i := NextAttempt(cfg.market, f, s.attempts[i])]
      && results' == (if f.Table? then results[chunkStarts[i] := LmpSeries(PriceColumnOf(cfg.market), f.rows)] else results)
      && result' == (if f.Table? then LmpSeries(PriceColumnOf(cfg.market), f.rows) else result)
  {
    var k := ChunkPeriod(cfg.market);
    ChunkStartsShape(cfg.start, cfg.end, k);
    var ts := chunkStarts[i];
    var te := if cfg.end - ts > k then chunkStarts[i + 1] else cfg.end;
    assert (ts, te) == Window(cfg.start, cfg.end, k, i);
    var query := QueryFor(cfg.node, cfg.market, ts, te, cfg.stampOf);
    var df := cfg.fetch(requests, query.params);
    var pricecol := PriceColumnOf(cfg.market);
    results', result' := results, result;
    match df
    case NoTable =>
      attempts[i] := attempts[i] + 1;
    case Table(rows) =>
      var series := LmpSeries(pricecol, rows);
      result' := series;
      results' := results[ts := series];
      if NoNulls(series) {
        attempts[i] := -1;
      } else {
        attempts[i] := attempts[i] + 1;
      }
  }

  /** Lines 170-190 after a query of window `i`: advance `i`, persist when caching, refresh the flag. */
  method QueriedPass<P>(cfg: Config<P>, chunkStarts: seq<int>, attempts: array<int>, complete: array<bool>,
                        i: nat, results: map<int, Series<P>>, result: Series<P>,
                        written: Option<Series<P>>, requests: nat, ghost tries: seq<nat>, ghost s: State<P>)
    returns (i': nat, last': int, results': map<int, Series<P>>, result': Series<P>,
             written': Option<Series<P>>, requests': nat, ghost tries': seq<nat>)
    requires chunkStarts == Starts(cfg)
    requires s.i == i && s.complete == complete[..] && s.tries == tries && s.results == results
    requires s.result == result && s.written == written && s.requests == requests && s.attempts == attempts[..]
    requires Ready(cfg, s) && !AllComplete(s.complete) && !s.complete[i]
    modifies attempts, complete
    ensures Queried(cfg, s, State(i', last', attempts[..], complete[..], tries', results', result', written', requests'))
  {
    var n := complete.Length;
    results', result' := QueryWindow(cfg, chunkStarts, attempts, i, results, result, requests, s);
    last', requests', tries', written' := i, requests + 1, tries[i := tries[i] + 1], written;
    i' := if i < n - 1 then i + 1 else 0;
    assert complete[..] == s.complete;
    if cfg.cacheContinuously || AllComplete(complete[..]) {
      if |results'| > 0 {
        result' := Merge(chunkStarts, results');
        written' := Some(result');
      }
    }
    complete[i] := Done(attempts[i], cfg.maxAttempts);
  }

  /** Lines 170-190 after passing over the complete window `i`. */
  method SkippedPass<P>(cfg: Config<P>, chunkStarts: seq<int>, attempts: array<int>, complete: array<bool>,
                        i: nat, last: int, results: map<int, Series<P>>, result: Series<P>,
                        written: Option<Series<P>>, ghost s: State<P>)
    returns (i': nat, result': Series<P>, written': Option<Series<P>>)
    requires chunkStarts == Starts(cfg)
    requires s.i == i && s.last == last && s.complete == complete[..] && s.attempts == attempts[..]
    requires s.results == results && s.result == result && s.written == written
    requires Ready(cfg, s) && !AllComplete(s.complete) && s.complete[i]
    modifies complete
    ensures Skipped(cfg, s, State(i', last, attempts[..], complete[..], s.tries, results, result', written', s.requests))
  {
    var n := complete.Length;
    i', result', written' := if i < n - 1 then i + 1 else 0, result, written;
    if cfg.cacheContinuously || AllComplete(complete[..]) {
      if |results| > 0 {
        result' := Merge(chunkStarts, results);
        written' := Some(result');
      }
    }
    complete[last] := Done(attempts[last], cfg.maxAttempts);
    assert complete[..] == s.complete;
  }

  /** Lines 138-190: one pass through the body of the `while` loop. */
  method LoopPass<P>(cfg: Config<P>, chunkStarts: seq<int>, attempts: array<int>, complete: array<bool>,
                     i: nat, last: int, results: map<int, Series<P>>, result: Series<P>,
                     written: Option<Series<P>>, requests: nat, ghost tries: seq<nat>, ghost s: State<P>)
    returns (i': nat, last': int, results': map<int, Series<P>>, result': Series<P>,
             written': Option<Series<P>>, requests': nat, ghost tries': seq<nat>)
    requires chunkStarts == Starts(cfg)
    requires s == State(i, last, attempts[..], complete[..], tries, results, result, written, requests)
    requires Valid(cfg, s) && !AllComplete(s.complete)
    modifies attempts, complete
    ensures State(i', last', attempts[..], complete[..], tries', results', result', written', requests') == Step(cfg, s)
  {
    assert Ready(cfg, s);
    if !complete[i] {
      i', last', results', result', written', requests', tries' :=
        QueriedPass(cfg, chunkStarts, attempts, complete, i, results, result, written, requests, tries, s);
      StepQuerying(cfg, s);
      QueriedUnique(cfg, s, State(i', last', attempts[..], complete[..], tries', results', result', written', requests'), Step(cfg, s));
    } else {
      last', results', requests', tries' := last, results, requests, tries;
      i', result', written' := SkippedPass(cfg, chunkStarts, attempts, complete, i, last, results, result, written, s);
      StepSkipping(cfg, s);
      SkippedUnique(cfg, s, State(i', last', attempts[..], complete[..], tries', results', result', written', requests'), Step(cfg, s));
    }
  }

  /**
    Lines 135-190: the `while` loop, run from any state that satisfies the invariant,
    computes exactly `Orchestrator.Run` from that state.
  */
  method Loop<P>(cfg: Config<P>, chunkStarts: seq<int>, attempts: array<int>, complete: array<bool>,
                 i0: nat, last0: int, results0: map<int, Series<P>>, result0: Series<P>,
                 written0: Option<Series<P>>, requests0: nat, ghost tries0: seq<nat>, ghost s0: State<P>)
    returns (result: Series<P>, written: Option<Series<P>>, requests: nat)
    requires chunkStarts == Starts(cfg)
    requires s0 == State(i0, last0, attempts[..], complete[..], tries0, results0, result0, written0, requests0)
    requires Valid(cfg, s0)
    modifies attempts, complete
    ensures var f := Run(cfg, s0);
      attempts[..] == f.attempts && complete[..] == f.complete
      && result == f.result && written == f.written && requests == f.requests
  {
    var n := |chunkStarts|;
    var i, last, results := i0, last0, results0;
    result, written, requests := result0, written0, requests0;
    ghost var tries := tries0;
    while !AllComplete(complete[..])
      invariant attempts.Length == n && complete.Length == n
      invariant Valid(cfg, State(i, last, attempts[..], complete[..], tries, results, result, written, requests))
      invariant Run(cfg, State(i, last, attempts[..], complete[..], tries, results, result, written, requests)) == Run(cfg, s0)
      decreases Budget(cfg, State(i, last, attempts[..], complete[..], tries, results, result, written, requests)),
                Scan(State(i, last, attempts[..], complete[..], tries, results, result, written, requests)),
                n - i
    {
      ghost var before := State(i, last, attempts[..], complete[..], tries, results, result, written, requests);
      RunStep(cfg, before);
      i, last, results, result, written, requests, tries :=
        LoopPass(cfg, chunkStarts, attempts, complete, i, last, results, result, written, requests, tries, before);
    }
  }

  /**
    Lines 108-191. An unknown market is refused (the source's `assert` at line 122);
    otherwise the range is cut into chunk starts, and the loop visits the windows in
    turn until every one is complete. The method returns what `Orchestrator.Run`
    computes from `Orchestrator.Init`, together with the output file's name.
  */
  method ScrapeDaterange<P>(node: string, market: string, start: int, end: int, maxAttempts: int,
                            cacheContinuously: bool, dateOf: int -> Date, stampOf: int -> Stamp,
                            fetch: (nat, QueryParams) -> Fetch<P>)
    returns (r: Result<Report<P>, ScrapeError>)
    ensures r.Failure? <==> ParseMarket(market).None?
    ensures r.Failure? ==> r.error == InvalidMarket(market)
    ensures r.Success? ==>
      var cfg := Config(node, ParseMarket(market).value, start, end, maxAttempts, cacheContinuously, dateOf, stampOf, fetch);
      var f := Run(cfg, Init(cfg));
      r.value == Report(f.result, OutputName(cfg), f.written, f.attempts, f.requests)
  {
    var parsed := ParseMarket(market);
    if parsed.None? {
      return Failure(InvalidMarket(market));
    }
    var m := parsed.value;
    var cfg := Config(node, m, start, end, maxAttempts, cacheContinuously, dateOf, stampOf, fetch);
    var chunkStarts := ChunkStarts(start, end, ChunkPeriod(m));
    var n := |chunkStarts|;
    var attempts := new int[n](_ => 0);
    var complete := new bool[n](_ => false);
    ghost var tries: seq<nat> := seq(n, _ => 0);
    assert attempts[..] == seq(n, _ => 0) && complete[..] == seq(n, _ => false);
    ghost var s0 := State(0, -1, attempts[..], complete[..], tries, map[], [], None, 0);
    assert s0 == Init(cfg);
    var result, written, requests := Loop(cfg, chunkStarts, attempts, complete, 0, -1, map[], [], None, 0, tries, s0);
    r := Success(Report(result, OutputName(cfg), written, attempts[..], requests));
  }
}
