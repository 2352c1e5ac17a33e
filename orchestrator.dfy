/**
  The retry loop of `scrape_daterange` (lines 134-191) as a state machine over values.
  One `Step` is one pass through the body of the `while` loop: query the window at
  index `i` unless it is complete, advance `i` cyclically, merge and persist when
  caching continuously, then recompute the completion flag of the last queried window.
  `Run` iterates `Step` until every completion flag is set; the imperative
  `Scraper.ScrapeDaterange` is proved to compute exactly `Run` from `Init`.

  The network is an oracle: the n-th HTTP request, sent with parameters `q`, yields
  `cfg.fetch(n, q)`, either a parsed table or nothing usable (`scrape_singlezip`
  returning `None` or the raw response, which makes `set_index` raise).
*/
module Orchestrator {
  import opened Wrappers
  import opened Times
  import opened Markets
  import opened Windows
  import opened Prices

  /** What one request yields once decoded. */
  datatype Fetch<P> = Table(rows: seq<Row<P>>) | NoTable

  /**
    The arguments of `scrape_daterange`. `dateOf` gives the calendar date of a day
    number, `stampOf` the instant `format_time` builds for it (localised in the input
    time zone, converted to the query time zone).
  */
  datatype Config<P> = Config(
    node: string,
    market: Market,
    start: int,
    end: int,
    maxAttempts: int,
    cacheContinuously: bool,
    dateOf: int -> Date,
    stampOf: int -> Stamp,
    fetch: (nat, QueryParams) -> Fetch<P>)

  function Starts<P>(cfg: Config<P>): seq<int> {
    ChunkStarts(cfg.start, cfg.end, ChunkPeriod(cfg.market))
  }

  /** The most attempts any window can receive: `max_n_attempts`, but at least one. */
  function Cap(maxAttempts: int): (c: nat)
    ensures c >= 1 && c >= maxAttempts
    ensures maxAttempts >= 1 ==> c == maxAttempts
  {
    if maxAttempts < 1 then 1 else maxAttempts
  }

  /** Line 190: a window is complete once it succeeded (-1) or used up its attempts. */
  predicate Done(attempt: int, maxAttempts: int) {
    attempt < 0 || attempt >= maxAttempts
  }

  /** `completion_srs.all()`. */
  predicate AllComplete(c: seq<bool>) {
    forall w :: 0 <= w < |c| ==> c[w]
  }

  /**
    The loop's variables: the cycling index `i`, the index `last` of the window that
    `ts` was last set to (-1 before the first query), `attempt_srs`, `completion_srs`,
    `results_dict`, `result_srs`, the content of the output file (`None` while it has
    not been written) and the number of requests sent. `tries` counts the requests
    per window; it is bookkeeping for the proofs and has no counterpart in the source.
  */
  datatype State<P> = State(
    i: nat,
    last: int,
    attempts: seq<int>,
    complete: seq<bool>,
    tries: seq<nat>,
    results: map<int, Series<P>>,
    result: Series<P>,
    written: Option<Series<P>>,
    requests: nat)

  function Sum(s: seq<nat>): nat {
    if s == [] then 0 else s[0] + Sum(s[1..])
  }

  lemma {:induction false} SumUpdate(s: seq<nat>, j: nat, v: nat)
    requires j < |s|
    ensures Sum(s[j := v]) == Sum(s) - s[j] + v
  {
    if j == 0 {
      assert s[j := v][1..] == s[1..];
    } else {
      assert s[j := v][1..] == s[1..][j - 1 := v];
      SumUpdate(s[1..], j - 1, v);
    }
  }

  lemma {:induction false} SumBounds(s: seq<nat>, lo: nat, hi: nat)
    requires forall j :: 0 <= j < |s| ==> lo <= s[j] <= hi
    ensures |s| * lo <= Sum(s) <= |s| * hi
  {
    if s != [] {
      SumBounds(s[1..], lo, hi);
      assert |s| * lo == lo + (|s| - 1) * lo;
      assert |s| * hi == hi + (|s| - 1) * hi;
    }
  }

  lemma {:induction false} SumZero(n: nat)
    ensures Sum(seq(n, _ => 0)) == 0
  {
    if n > 0 {
      assert seq(n, _ => 0)[1..] == seq(n - 1, _ => 0);
      SumZero(n - 1);
    }
  }

  ghost predicate Shaped<P>(cfg: Config<P>, s: State<P>) {
    var n := |Starts(cfg)|;
    && |s.attempts| == n && |s.complete| == n && |s.tries| == n
    && (if n == 0 then s.i == 0 else s.i < n)
    && -1 <= s.last < n
  }

  /** The attempt record of window `w`. */
  ghost predicate WindowOk<P>(cfg: Config<P>, s: State<P>, w: nat)
    requires Shaped(cfg, s) && w < |Starts(cfg)|
  {
    var cap, a := Cap(cfg.maxAttempts), s.attempts[w];
    && (s.complete[w] ==> (a == -1 || a == cap) && 1 <= s.tries[w] <= cap)
    && (!s.complete[w] ==> 0 <= a < cap)
    && (a >= 0 ==> s.tries[w] == a)
    && (a == -1 ==> Starts(cfg)[w] in s.results && NoNulls(s.results[Starts(cfg)[w]]))
  }

  /** What the stored series and the returned and persisted series are. */
  ghost predicate OutputOk<P>(cfg: Config<P>, s: State<P>) {
    && (forall key :: key in s.results ==> key in Starts(cfg) && Sorted(s.results[key]))
    && (cfg.cacheContinuously ==> s.result == Merge(Starts(cfg), s.results))
    && (!cfg.cacheContinuously ==> s.written == None)
    && (!cfg.cacheContinuously ==> s.result == [] || exists key :: key in s.results && s.results[key] == s.result)
    && (s.written.Some? ==> s.written.value == s.result)
    && (cfg.cacheContinuously && |s.results| > 0 ==> s.written == Some(s.result))
  }

  /** The invariant of the loop at its head. */
  ghost predicate Valid<P>(cfg: Config<P>, s: State<P>) {
    && Shaped(cfg, s)
    && (s.last == -1 ==> s.i == 0 && forall w :: 0 <= w < |s.complete| ==> !s.complete[w])
    && (s.last >= 0 ==> s.complete[s.last] == Done(s.attempts[s.last], cfg.maxAttempts))
    && (forall w :: 0 <= w < |Starts(cfg)| ==> WindowOk(cfg, s, w))
    && s.requests == Sum(s.tries)
    && OutputOk(cfg, s)
  }

  /** Lines 125-134: no window tried yet, nothing stored. */
  function Init<P>(cfg: Config<P>): (s: State<P>)
    ensures Valid(cfg, s)
    ensures |s.attempts| == |Starts(cfg)| && s.requests == 0 && s.result == [] && s.written == None
  {
    var n := |Starts(cfg)|;
    SumZero(n);
    MergeNothing<P>(Starts(cfg));
    State(0, -1, seq(n, _ => 0), seq(n, _ => false), seq(n, _ => 0), map[], [], None, 0)
  }

  /** Lines 142-154: the query sent for window `i`. */
  function WindowQuery<P>(cfg: Config<P>, i: nat): (q: Query)
    requires i < |Starts(cfg)|
  {
    var (ts, te) := Window(cfg.start, cfg.end, ChunkPeriod(cfg.market), i);
    QueryFor(cfg.node, cfg.market, ts, te, cfg.stampOf)
  }

  /** Line 155: what the next request, the query for window `i`, brings back. */
  function Answer<P>(cfg: Config<P>, s: State<P>): Fetch<P>
    requires s.i < |Starts(cfg)|
  {
    cfg.fetch(s.requests, WindowQuery(cfg, s.i).params)
  }

  /**
    Lines 157-169: the attempt counter after a request. It becomes -1 when a table came
    back whose series has no nulls, and grows by one otherwise.
  */
  function NextAttempt<P>(m: Market, f: Fetch<P>, attempt: int): (a: int)
    requires attempt >= 0
    ensures a == -1 <==> f.Table? && NoNulls(LmpSeries(PriceColumnOf(m), f.rows))
    ensures a != -1 ==> a == attempt + 1
  {
    match f
    case NoTable => attempt + 1
    case Table(rows) => if NoNulls(LmpSeries(PriceColumnOf(m), rows)) then -1 else attempt + 1
  }

  /**
    Lines 138-169: query window `i`. The series of a returned table is stored under the
    window's chunk start before the null check, so a failed attempt can leave a series
    with nulls behind.
  */
  function Attempt<P>(cfg: Config<P>, s: State<P>): (r: State<P>)
    requires Shaped(cfg, s) && s.i < |Starts(cfg)| && s.attempts[s.i] >= 0
  {
    var ts := Starts(cfg)[s.i];
    var f := Answer(cfg, s);
    var sent := s.(last := s.i, attempts := s.attempts[s.i := NextAttempt(cfg.market, f, s.attempts[s.i])],
                   tries := s.tries[s.i := s.tries[s.i] + 1], requests := s.requests + 1);
    match f
    case NoTable => sent
    case Table(rows) =>
      var series := LmpSeries(PriceColumnOf(cfg.market), rows);
      sent.(results := s.results[ts := series], result := series)
  }

  /**
    Lines 179-186: when anything is stored, the result becomes the merge of it and the
    file holds it; with nothing stored `pd.concat` raises and both stay as they were.
  */
  function Persist<P>(cfg: Config<P>, results: map<int, Series<P>>, result: Series<P>, written: Option<Series<P>>)
    : (r: (Series<P>, Option<Series<P>>))
    ensures |results| == 0 ==> r == (result, written)
    ensures |results| > 0 ==> r.0 == Merge(Starts(cfg), results) && r.1 == Some(r.0)
  {
    if |results| == 0 then (result, written)
    else
      var merged := Merge(Starts(cfg), results);
      (merged, Some(merged))
  }

  /**
    What a pass needs: `i` is on a window, a pending window's counter is not negative, a
    complete window under `i` means some window was queried before, and the flag of the
    window last queried is up to date.
  */
  ghost predicate Ready<P>(cfg: Config<P>, s: State<P>) {
    && Shaped(cfg, s) && s.i < |Starts(cfg)| && WindowOk(cfg, s, s.i)
    && (s.complete[s.i] ==> s.last >= 0)
    && (s.last >= 0 ==> s.complete[s.last] == Done(s.attempts[s.last], cfg.maxAttempts))
  }

  /** One pass through the body of the `while` loop. */
  function Step<P>(cfg: Config<P>, s: State<P>): (r: State<P>)
    requires Ready(cfg, s) && !AllComplete(s.complete)
    ensures Shaped(cfg, r)
  {
    var n := |s.complete|;
    var q := if !s.complete[s.i] then Attempt(cfg, s) else s;
    var (result, written) :=
      if cfg.cacheContinuously || AllComplete(q.complete) then Persist(cfg, q.results, q.result, q.written)
      else (q.result, q.written);
    State(if s.i < n - 1 then s.i + 1 else 0, q.last, q.attempts,
          q.complete[q.last := Done(q.attempts[q.last], cfg.maxAttempts)],
          q.tries, q.results, result, written, q.requests)
  }

  /** The result and file after the line-175 test, given what is stored and extracted. */
  function Output<P>(cfg: Config<P>, results: map<int, Series<P>>, result: Series<P>, written: Option<Series<P>>)
    : (Series<P>, Option<Series<P>>)
  {
    if cfg.cacheContinuously then Persist(cfg, results, result, written) else (result, written)
  }

  /** The state after a pass over the complete window `i`, field by field. */
  ghost predicate Skipped<P>(cfg: Config<P>, s: State<P>, r: State<P>)
    requires Ready(cfg, s)
  {
    && r.attempts == s.attempts && r.complete == s.complete && r.tries == s.tries
    && r.results == s.results && r.last == s.last && r.requests == s.requests
    && r.i == (if s.i < |s.complete| - 1 then s.i + 1 else 0)
    && (r.result, r.written) == Output(cfg, s.results, s.result, s.written)
  }

  /** The state after a pass that queries the pending window `i`, field by field. */
  ghost predicate Queried<P>(cfg: Config<P>, s: State<P>, r: State<P>)
    requires Ready(cfg, s) && !s.complete[s.i]
  {
    var f := Answer(cfg, s);
    var a := NextAttempt(cfg.market, f, s.attempts[s.i]);
    var results := if f.Table? then s.results[Starts(cfg)[s.i] := LmpSeries(PriceColumnOf(cfg.market), f.rows)] else s.results;
    var result := if f.Table? then LmpSeries(PriceColumnOf(cfg.market), f.rows) else s.result;
    && r.attempts == s.attempts[s.i := a] && r.complete == s.complete[s.i := Done(a, cfg.maxAttempts)]
    && r.tries == s.tries[s.i := s.tries[s.i] + 1] && r.results == results
    && r.last == s.i && r.requests == s.requests + 1
    && r.i == (if s.i < |s.complete| - 1 then s.i + 1 else 0)
    && (r.result, r.written) == Output(cfg, results, result, s.written)
  }

  /** A pass over a complete window changes nothing but `i` and, when caching, the merged result. */
  lemma StepSkipping<P>(cfg: Config<P>, s: State<P>)
    requires Ready(cfg, s) && !AllComplete(s.complete) && s.complete[s.i]
    ensures Skipped(cfg, s, Step(cfg, s))
  {
  }

  /** The fields of the state after a pass that queries the pending window `i`. */
  lemma StepQuerying<P>(cfg: Config<P>, s: State<P>)
    requires Ready(cfg, s) && !AllComplete(s.complete) && !s.complete[s.i]
    ensures Queried(cfg, s, Step(cfg, s))
  {
  }

  /** The field-by-field descriptions determine the state. */
  lemma SkippedUnique<P>(cfg: Config<P>, s: State<P>, r1: State<P>, r2: State<P>)
    requires Ready(cfg, s) && Skipped(cfg, s, r1) && Skipped(cfg, s, r2)
    ensures r1 == r2
  {
  }

  lemma QueriedUnique<P>(cfg: Config<P>, s: State<P>, r1: State<P>, r2: State<P>)
    requires Ready(cfg, s) && !s.complete[s.i] && Queried(cfg, s, r1) && Queried(cfg, s, r2)
    ensures r1 == r2
  {
  }

  /** The line-175 test `completion_srs.all()` is never true: the flags are only refreshed after it. */
  lemma PersistOnlyWhenCaching<P>(cfg: Config<P>, s: State<P>)
    requires Valid(cfg, s) && !AllComplete(s.complete)
    ensures !cfg.cacheContinuously ==> Step(cfg, s).written == s.written
  {
    if s.complete[s.i] {
      StepSkipping(cfg, s);
    } else {
      StepQuerying(cfg, s);
    }
  }

  /** `i` advances by one and wraps to 0 after the last window. */
  lemma StepAdvances<P>(cfg: Config<P>, s: State<P>)
    requires Valid(cfg, s) && !AllComplete(s.complete)
    ensures Step(cfg, s).i == (s.i + 1) % |s.complete|
  {
    if s.complete[s.i] {
      StepSkipping(cfg, s);
    } else {
      StepQuerying(cfg, s);
    }
    WrapAround(s.i, |s.complete|);
  }

  lemma WrapAround(i: nat, n: nat)
    requires i < n
    ensures (i + 1) % n == (if i < n - 1 then i + 1 else 0)
  {
  }

  /** Distinct windows have distinct chunk starts, so storing one series leaves the others. */
  lemma DistinctKeys<P>(cfg: Config<P>, v: nat, w: nat)
    requires v < |Starts(cfg)| && w < |Starts(cfg)| && v != w
    ensures Starts(cfg)[v] != Starts(cfg)[w]
  {
    ChunkStartsIncreasing(cfg.start, cfg.end, ChunkPeriod(cfg.market), if v < w then v else w, if v < w then w else v);
  }

  /**
    A complete window is never queried again: its counter, request count, flag and
    stored series stay as they are. A pending window is queried exactly when `i` is on it.
  */
  lemma StepKeepsCompleted<P>(cfg: Config<P>, s: State<P>)
    requires Valid(cfg, s) && !AllComplete(s.complete)
    ensures var r := Step(cfg, s);
      && (forall w :: 0 <= w < |s.complete| && s.complete[w] ==>
            r.complete[w] && r.attempts[w] == s.attempts[w] && r.tries[w] == s.tries[w]
            && (Starts(cfg)[w] in s.results ==> Starts(cfg)[w] in r.results && r.results[Starts(cfg)[w]] == s.results[Starts(cfg)[w]]))
      && (forall w :: 0 <= w < |s.complete| && w != s.i ==> r.attempts[w] == s.attempts[w] && r.tries[w] == s.tries[w])
      && r.requests == s.requests + (if s.complete[s.i] then 0 else 1)
  {
    if s.complete[s.i] {
      StepSkipping(cfg, s);
    } else {
      StepQuerying(cfg, s);
      QueryKeeps(cfg, s, Step(cfg, s));
    }
  }

  lemma QueryKeeps<P>(cfg: Config<P>, s: State<P>, r: State<P>)
    requires Ready(cfg, s) && !s.complete[s.i] && Queried(cfg, s, r)
    ensures |r.complete| == |r.attempts| == |r.tries| == |s.complete|
    ensures forall w :: 0 <= w < |s.complete| && s.complete[w] ==>
      r.complete[w] && r.attempts[w] == s.attempts[w] && r.tries[w] == s.tries[w]
      && (Starts(cfg)[w] in s.results ==> Starts(cfg)[w] in r.results && r.results[Starts(cfg)[w]] == s.results[Starts(cfg)[w]])
    ensures forall w :: 0 <= w < |s.complete| && w != s.i ==> r.attempts[w] == s.attempts[w] && r.tries[w] == s.tries[w]
  {
    forall w | 0 <= w < |s.complete| && s.complete[w] && Starts(cfg)[w] in s.results
      ensures Starts(cfg)[w] in r.results && r.results[Starts(cfg)[w]] == s.results[Starts(cfg)[w]]
    {
      DistinctKeys(cfg, w, s.i);
    }
  }

  /**
    Lines 158-169: a table whose LMP series still holds a null is stored under the
    window's chunk start anyway, and the window's counter goes up as for a failure.
  */
  lemma NullSeriesStored<P>(cfg: Config<P>, s: State<P>)
    requires Valid(cfg, s) && !AllComplete(s.complete) && !s.complete[s.i]
    requires Answer(cfg, s).Table? && !NoNulls(LmpSeries(PriceColumnOf(cfg.market), Answer(cfg, s).rows))
    ensures var r := Step(cfg, s);
      && r.attempts[s.i] == s.attempts[s.i] + 1
      && Starts(cfg)[s.i] in r.results
      && r.results[Starts(cfg)[s.i]] == LmpSeries(PriceColumnOf(cfg.market), Answer(cfg, s).rows)
  {
    StepQuerying(cfg, s);
  }

  /** Skipping a complete window keeps the invariant. */
  lemma SkipValid<P>(cfg: Config<P>, s: State<P>, r: State<P>)
    requires Valid(cfg, s) && Ready(cfg, s) && s.complete[s.i] && Skipped(cfg, s, r)
    ensures Valid(cfg, r)
  {
    forall w | 0 <= w < |Starts(cfg)| ensures WindowOk(cfg, r, w) {
      assert WindowOk(cfg, s, w);
    }
  }

  /** Querying a pending window keeps every window's attempt record. */
  lemma QueryWindowsOk<P>(cfg: Config<P>, s: State<P>, r: State<P>)
    requires Valid(cfg, s) && Ready(cfg, s) && !s.complete[s.i] && Queried(cfg, s, r)
    ensures Shaped(cfg, r) && forall w :: 0 <= w < |Starts(cfg)| ==> WindowOk(cfg, r, w)
  {
    forall w | 0 <= w < |Starts(cfg)| ensures WindowOk(cfg, r, w) {
      assert WindowOk(cfg, s, w);
      if w != s.i {
        DistinctKeys(cfg, w, s.i);
      }
    }
  }

  /** Querying a pending window keeps what is stored, returned and written consistent. */
  lemma QueryOutputOk<P>(cfg: Config<P>, s: State<P>, r: State<P>)
    requires Valid(cfg, s) && Ready(cfg, s) && !s.complete[s.i] && Queried(cfg, s, r)
    ensures OutputOk(cfg, r)
  {
    var f := Answer(cfg, s);
    var ts := Starts(cfg)[s.i];
    assert ts in Starts(cfg);
    if !cfg.cacheContinuously && f.Table? {
      assert r.results[ts] == r.result;
    }
  }

  /** Querying a pending window keeps the invariant. */
  lemma QueryValid<P>(cfg: Config<P>, s: State<P>, r: State<P>)
    requires Valid(cfg, s) && Ready(cfg, s) && !s.complete[s.i] && Queried(cfg, s, r)
    ensures Valid(cfg, r)
  {
    QueryWindowsOk(cfg, s, r);
    QueryOutputOk(cfg, s, r);
    SumUpdate(s.tries, s.i, s.tries[s.i] + 1);
  }

  /** A pass preserves the invariant. */
  lemma StepValid<P>(cfg: Config<P>, s: State<P>)
    requires Valid(cfg, s) && !AllComplete(s.complete)
    ensures Valid(cfg, Step(cfg, s))
  {
    if s.complete[s.i] {
      StepSkipping(cfg, s);
      SkipValid(cfg, s, Step(cfg, s));
    } else {
      StepQuerying(cfg, s);
      QueryValid(cfg, s, Step(cfg, s));
    }
  }

  /** The budget of attempts still open: each pending window can take `Cap - attempts` more. */
  function Cost(complete: bool, attempt: int, cap: nat): nat {
    if complete || attempt >= cap then 0 else (cap - attempt) as nat
  }

  function Costs<P>(cfg: Config<P>, s: State<P>): seq<nat>
    requires |s.attempts| == |s.complete|
  {
    seq(|s.complete|, w requires 0 <= w < |s.complete| => Cost(s.complete[w], s.attempts[w], Cap(cfg.maxAttempts)))
  }

  function Budget<P>(cfg: Config<P>, s: State<P>): nat
    requires |s.attempts| == |s.complete|
  {
    Sum(Costs(cfg, s))
  }

  /** 0 while a pending window lies at or after `i`, 1 once the scan has to wrap around. */
  ghost function Scan<P>(s: State<P>): nat {
    if exists j :: s.i <= j < |s.complete| && !s.complete[j] then 0 else 1
  }

  /** Passing over a complete window keeps the budget and moves `i` closer to a pending window. */
  lemma SkipProgress<P>(cfg: Config<P>, s: State<P>, r: State<P>)
    requires |s.attempts| == |s.complete| && s.i < |s.complete| && s.complete[s.i] && !AllComplete(s.complete)
    requires r.attempts == s.attempts && r.complete == s.complete
    requires r.i == (if s.i < |s.complete| - 1 then s.i + 1 else 0)
    ensures Budget(cfg, r) == Budget(cfg, s)
    ensures Scan(r) < Scan(s) || (Scan(r) == Scan(s) && |r.complete| - r.i < |s.complete| - s.i)
  {
    var n := |s.complete|;
    assert Costs(cfg, r) == Costs(cfg, s);
    if s.i == n - 1 {
      assert Scan(s) == 1;
      var j :| 0 <= j < n && !s.complete[j];
      assert Scan(r) == 0;
    } else if Scan(s) == 0 {
      var j :| s.i <= j < n && !s.complete[j];
      assert r.i <= j;
      assert Scan(r) == 0;
    }
  }

  /** Querying a pending window either completes it or spends one of its attempts. */
  lemma QueryProgress<P>(cfg: Config<P>, s: State<P>, r: State<P>, a: int)
    requires |s.attempts| == |s.complete| && s.i < |s.complete| && !s.complete[s.i]
    requires 0 <= s.attempts[s.i] < Cap(cfg.maxAttempts)
    requires a == -1 || a == s.attempts[s.i] + 1
    requires r.attempts == s.attempts[s.i := a] && r.complete == s.complete[s.i := Done(a, cfg.maxAttempts)]
    ensures Budget(cfg, r) < Budget(cfg, s)
  {
    var cap := Cap(cfg.maxAttempts);
    var c := Cost(Done(a, cfg.maxAttempts), a, cap);
    assert Costs(cfg, r) == Costs(cfg, s)[s.i := c];
    SumUpdate(Costs(cfg, s), s.i, c);
  }

  /** Every pass lowers the budget, or keeps it and moves `i` closer to a pending window. */
  lemma StepProgress<P>(cfg: Config<P>, s: State<P>)
    requires Valid(cfg, s) && !AllComplete(s.complete)
    ensures var r := Step(cfg, s);
      || Budget(cfg, r) < Budget(cfg, s)
      || (Budget(cfg, r) == Budget(cfg, s) && Scan(r) < Scan(s))
      || (Budget(cfg, r) == Budget(cfg, s) && Scan(r) == Scan(s) && |r.complete| - r.i < |s.complete| - s.i)
  {
    if s.complete[s.i] {
      StepSkipping(cfg, s);
      SkipProgress(cfg, s, Step(cfg, s));
    } else {
      StepQuerying(cfg, s);
      QueryProgress(cfg, s, Step(cfg, s), NextAttempt(cfg.market, Answer(cfg, s), s.attempts[s.i]));
    }
  }

  /**
    The loop run to its end from `s`: it terminates, with every window complete, and
    leaves the windows that were already complete untouched.
  */
  ghost function Run<P>(cfg: Config<P>, s: State<P>): (r: State<P>)
    requires Valid(cfg, s)
    ensures Valid(cfg, r) && AllComplete(r.complete)
    ensures r.requests >= s.requests
    ensures forall w :: 0 <= w < |s.complete| && s.complete[w] ==>
      r.attempts[w] == s.attempts[w] && r.tries[w] == s.tries[w]
      && (Starts(cfg)[w] in s.results ==> Starts(cfg)[w] in r.results && r.results[Starts(cfg)[w]] == s.results[Starts(cfg)[w]])
    decreases Budget(cfg, s), Scan(s), |s.complete| - s.i
  {
    if AllComplete(s.complete) then s
    else
      StepValid(cfg, s);
      StepProgress(cfg, s);
      StepKeepsCompleted(cfg, s);
      Run(cfg, Step(cfg, s))
  }

  /** A pass keeps the invariant, lowers the measure and leaves the final state of the run unchanged. */
  lemma RunStep<P>(cfg: Config<P>, s: State<P>)
    requires Valid(cfg, s) && !AllComplete(s.complete)
    ensures var r := Step(cfg, s);
      && Valid(cfg, r) && Run(cfg, r) == Run(cfg, s)
      && (|| Budget(cfg, r) < Budget(cfg, s)
          || (Budget(cfg, r) == Budget(cfg, s) && Scan(r) < Scan(s))
          || (Budget(cfg, r) == Budget(cfg, s) && Scan(r) == Scan(s) && |r.complete| - r.i < |s.complete| - s.i))
  {
    StepValid(cfg, s);
    StepProgress(cfg, s);
  }

  /**
    Attempt accounting over a whole run: every counter ends at -1 (success) or at the
    cap, no window is requested more than `max(max_n_attempts, 1)` times, and each is
    requested at least once.
  */
  lemma RunAttempts<P>(cfg: Config<P>)
    ensures var f, n, cap := Run(cfg, Init(cfg)), |Starts(cfg)|, Cap(cfg.maxAttempts);
      && |f.attempts| == n && |f.tries| == n
      && (forall w :: 0 <= w < n ==> (f.attempts[w] == -1 || f.attempts[w] == cap) && 1 <= f.tries[w] <= cap)
      && n <= f.requests <= n * cap
  {
    var f, n, cap := Run(cfg, Init(cfg)), |Starts(cfg)|, Cap(cfg.maxAttempts);
    forall w | 0 <= w < n
      ensures (f.attempts[w] == -1 || f.attempts[w] == cap) && 1 <= f.tries[w] <= cap
    {
      assert WindowOk(cfg, f, w);
    }
    SumBounds(f.tries, 1, cap);
  }

  /**
    What a whole run stores and returns: every succeeded window keeps a null-free
    series, every stored series is sorted and keyed by a chunk start, and when caching
    continuously the result and the file hold the sorted concatenation of all of them.
  */
  lemma RunSeries<P>(cfg: Config<P>)
    ensures var f, n := Run(cfg, Init(cfg)), |Starts(cfg)|;
      && |f.attempts| == n
      && (forall w :: 0 <= w < n && f.attempts[w] == -1 ==>
            Starts(cfg)[w] in f.results && NoNulls(f.results[Starts(cfg)[w]]))
      && (forall key :: key in f.results ==> key in Starts(cfg) && Sorted(f.results[key]))
      && (cfg.cacheContinuously ==> f.result == Merge(Starts(cfg), f.results) && Sorted(f.result))
      && (f.written.Some? ==> f.written.value == f.result)
      && (cfg.cacheContinuously && |f.results| > 0 ==> f.written == Some(Merge(Starts(cfg), f.results)))
      && (!cfg.cacheContinuously ==> f.written == None)
  {
    var f, n := Run(cfg, Init(cfg)), |Starts(cfg)|;
    forall w | 0 <= w < n && f.attempts[w] == -1
      ensures Starts(cfg)[w] in f.results && NoNulls(f.results[Starts(cfg)[w]])
    {
      assert WindowOk(cfg, f, w);
    }
  }

  /** An empty range (start after end) has no chunk start: nothing is requested and the result is empty. */
  lemma EmptyRange<P>(cfg: Config<P>)
    requires cfg.start > cfg.end
    ensures Run(cfg, Init(cfg)).requests == 0 && Run(cfg, Init(cfg)).result == []
    ensures Run(cfg, Init(cfg)).written == None
  {
    ChunkStartsShape(cfg.start, cfg.end, ChunkPeriod(cfg.market));
  }

  /**
    The pass that the docstring (line 119) and the comment at lines 176-178 describe: the
    refresh of line 190 comes before the test of line 175, so the pass that completes
    the last window merges and writes even without continuous caching.
  */
  function IntendedStep<P>(cfg: Config<P>, s: State<P>): (r: State<P>)
    requires Ready(cfg, s) && !AllComplete(s.complete)
    ensures var t := Step(cfg, s);
      && r.i == t.i && r.last == t.last && r.attempts == t.attempts && r.complete == t.complete
      && r.tries == t.tries && r.results == t.results && r.requests == t.requests
      && (!AllComplete(r.complete) ==> r == t)
    ensures AllComplete(r.complete) && |r.results| > 0 ==>
      r.result == Merge(Starts(cfg), r.results) && r.written == Some(r.result)
  {
    var n := |s.complete|;
    var q := if !s.complete[s.i] then Attempt(cfg, s) else s;
    var complete := q.complete[q.last := Done(q.attempts[q.last], cfg.maxAttempts)];
    var (result, written) :=
      if cfg.cacheContinuously || AllComplete(complete) then Persist(cfg, q.results, q.result, q.written)
      else (q.result, q.written);
    State(if s.i < n - 1 then s.i + 1 else 0, q.last, q.attempts, complete,
          q.tries, q.results, result, written, q.requests)
  }

  /** The loop of `IntendedStep` passes, run until every window is complete. */
  ghost function IntendedRun<P>(cfg: Config<P>, s: State<P>): (r: State<P>)
    requires Valid(cfg, s)
    ensures AllComplete(r.complete)
    decreases Budget(cfg, s), Scan(s), |s.complete| - s.i
  {
    if AllComplete(s.complete) then s
    else
      var r := IntendedStep(cfg, s);
      if AllComplete(r.complete) then r
      else
        StepValid(cfg, s);
        StepProgress(cfg, s);
        IntendedRun(cfg, r)
  }

  /**
    The intended loop sends the same requests and stores the same series as the loop as
    written, and ends with the merge of everything stored as its result and its file.
  */
  lemma {:induction false} IntendedRunAgrees<P>(cfg: Config<P>, s: State<P>)
    requires Valid(cfg, s) && !AllComplete(s.complete)
    ensures var f, g := IntendedRun(cfg, s), Run(cfg, s);
      && f.attempts == g.attempts && f.complete == g.complete && f.tries == g.tries
      && f.results == g.results && f.requests == g.requests
      && (|f.results| > 0 ==> f.result == Merge(Starts(cfg), f.results) && f.written == Some(f.result))
    decreases Budget(cfg, s), Scan(s), |s.complete| - s.i
  {
    StepValid(cfg, s);
    StepProgress(cfg, s);
    var t := Step(cfg, s);
    if AllComplete(t.complete) {
      assert Run(cfg, t) == t;
    } else {
      IntendedRunAgrees(cfg, t);
    }
  }

  /**
    Whatever `cache_continuously` is, the intended run ends with the sorted merge of every
    stored series as its result and as the file's content, once anything is stored; its
    requests, counters and stored series are those of the run as written.
  */
  lemma IntendedRunWrites<P>(cfg: Config<P>)
    ensures var f, g := IntendedRun(cfg, Init(cfg)), Run(cfg, Init(cfg));
      && f.attempts == g.attempts && f.tries == g.tries && f.results == g.results && f.requests == g.requests
      && (|f.results| > 0 ==> f.result == Merge(Starts(cfg), f.results) && f.written == Some(f.result))
  {
    if !AllComplete(Init(cfg).complete) {
      IntendedRunAgrees(cfg, Init(cfg));
    }
  }

  /** The oracle answers every request with a table whose `LMP` series has no nulls. */
  ghost predicate Reliable<P>(cfg: Config<P>) {
    forall k: nat, q: QueryParams :: cfg.fetch(k, q).Table? &&
      NoNulls(LmpSeries(PriceColumnOf(cfg.market), cfg.fetch(k, q).rows))
  }

  /** Every complete window succeeded with its one request, and no pending window was requested. */
  ghost predicate Untroubled<P>(s: State<P>)
    requires |s.complete| == |s.attempts| == |s.tries|
  {
    forall w :: 0 <= w < |s.complete| ==>
      if s.complete[w] then s.tries[w] == 1 && s.attempts[w] == -1 else s.tries[w] == 0
  }

  /** With a reliable oracle a step leaves complete windows tried once and pending ones untried. */
  lemma StepReliable<P>(cfg: Config<P>, s: State<P>)
    requires Valid(cfg, s) && Reliable(cfg) && !AllComplete(s.complete)
    requires Untroubled(s)
    ensures Untroubled(Step(cfg, s))
  {
    if s.complete[s.i] {
      StepSkipping(cfg, s);
    } else {
      StepQuerying(cfg, s);
      QueryReliable(cfg, s, Step(cfg, s));
    }
  }

  lemma QueryReliable<P>(cfg: Config<P>, s: State<P>, r: State<P>)
    requires Ready(cfg, s) && Reliable(cfg) && !s.complete[s.i] && Untroubled(s)
    requires Queried(cfg, s, r)
    ensures |r.complete| == |r.attempts| == |r.tries| && Untroubled(r)
  {
    assert Answer(cfg, s).Table?;
    assert r.attempts[s.i] == -1;
  }

  /** With such an oracle, a run from an untroubled state ends with every window succeeded after one request. */
  lemma {:induction false} RunReliable<P>(cfg: Config<P>, s: State<P>)
    requires Valid(cfg, s) && Reliable(cfg)
    requires Untroubled(s)
    ensures forall w :: 0 <= w < |s.tries| ==> Run(cfg, s).tries[w] == 1 && Run(cfg, s).attempts[w] == -1
    decreases Budget(cfg, s), Scan(s), |s.complete| - s.i
  {
    if AllComplete(s.complete) {
    } else {
      StepValid(cfg, s);
      StepProgress(cfg, s);
      StepReliable(cfg, s);
      RunReliable(cfg, Step(cfg, s));
    }
  }

  /** Absent failures every window is fetched exactly once and succeeds. */
  lemma AbsentFailures<P>(cfg: Config<P>)
    requires Reliable(cfg)
    ensures var f := Run(cfg, Init(cfg));
      && f.requests == |Starts(cfg)|
      && forall w :: 0 <= w < |f.attempts| ==> f.attempts[w] == -1
  {
    RunReliable(cfg, Init(cfg));
    var f := Run(cfg, Init(cfg));
    SumBounds(f.tries, 1, 1);
  }

  /**
    The loop as written, without continuous caching: even when every window succeeds at
    its first request and so has a series stored, no file is written.
  */
  lemma UncachedRunWritesNothing<P>(cfg: Config<P>)
    requires !cfg.cacheContinuously && Reliable(cfg) && cfg.start <= cfg.end
    ensures var f := Run(cfg, Init(cfg));
      && |f.attempts| == |Starts(cfg)| > 0
      && (forall w :: 0 <= w < |f.attempts| ==> f.attempts[w] == -1 && Starts(cfg)[w] in f.results)
      && f.written == None
  {
    ChunkStartsShape(cfg.start, cfg.end, ChunkPeriod(cfg.market));
    AbsentFailures(cfg);
    RunSeries(cfg);
  }

  /**
    Line 181: `LMP_{node}_{market}_{start}_{end}.csv`. It depends on the overall range
    only, never on a window.
  */
  function OutputName<P>(cfg: Config<P>): string {
    "LMP_" + cfg.node + "_" + MarketName(cfg.market) + "_"
    + (FormatDate(cfg.dateOf(cfg.start)) + ("_" + (FormatDate(cfg.dateOf(cfg.end)) + ".csv")))
  }

  /** Where the two dates sit in `head + a + "_" + b + ".csv"`, counted from the end. */
  lemma NameTail(head: string, a: string, b: string)
    requires |a| == 10 && |b| == 10
    ensures var s := head + (a + ("_" + (b + ".csv")));
      && |s| == |head| + 25
      && s[|s| - 25..|s| - 15] == a && s[|s| - 14..|s| - 4] == b && s[|s| - 4..] == ".csv"
  {
    var s := head + (a + ("_" + (b + ".csv")));
    var h := |head|;
    assert s[h..] == a + ("_" + (b + ".csv"));
    Peel(s, h, a, "_" + (b + ".csv"));
    Peel(s, h + 10, "_", b + ".csv");
    Peel(s, h + 11, b, ".csv");
  }

  /**
    Both calendar dates of the range can be read back from the tail of the file name, so
    ranges whose start or end dates differ give different names.
  */
  lemma OutputNameRange<P>(cfg: Config<P>)
    requires ValidDate(cfg.dateOf(cfg.start)) && ValidDate(cfg.dateOf(cfg.end))
    ensures var s := OutputName(cfg);
      && |s| >= 29 && s[..4] == "LMP_" && s[|s| - 4..] == ".csv"
      && ParseDate(s[|s| - 25..|s| - 15]) == Some(cfg.dateOf(cfg.start))
      && ParseDate(s[|s| - 14..|s| - 4]) == Some(cfg.dateOf(cfg.end))
  {
    var a, b := FormatDate(cfg.dateOf(cfg.start)), FormatDate(cfg.dateOf(cfg.end));
    FormatDateRoundTrip(cfg.dateOf(cfg.start));
    FormatDateRoundTrip(cfg.dateOf(cfg.end));
    var head := "LMP_" + cfg.node + "_" + MarketName(cfg.market) + "_";
    NameTail(head, a, b);
    HeadKept(head, a + ("_" + (b + ".csv")), 4);
  }

  lemma HeadKept(x: string, y: string, k: nat)
    requires k <= |x|
    ensures (x + y)[..k] == x[..k]
  {
  }
}
