/**
  How `scrape_daterange` cuts [start, end] into query windows. Dates are day numbers.
  The chunk starts are `pd.date_range(start, end, freq=k days)`. The window opened at
  a chunk start `ts` ends at the next chunk start when `end - ts > k` and at `end`
  otherwise, so neighbouring windows share an endpoint; when `end - start` is a
  multiple of `k` the last window is the single day [end, end].
*/
module Windows {
  import opened Times
  import opened Markets

  /** `pd.date_range(start=start, end=end, freq=f'{k}D')`. */
  function ChunkStarts(start: int, end: int, k: nat): (cs: seq<int>)
    requires k >= 1
    decreases if start > end then 0 else end - start + 1
  {
    if start > end then [] else [start] + ChunkStarts(start + k, end, k)
  }

  /** The chunk starts are start, start + k, start + 2k, ... up to and including the last one <= end. */
  lemma {:induction false} ChunkStartsShape(start: int, end: int, k: nat)
    requires k >= 1
    ensures var cs := ChunkStarts(start, end, k);
      && (cs == [] <==> start > end)
      && (cs != [] ==> cs[0] == start && cs[|cs| - 1] <= end < cs[|cs| - 1] + k)
      && (forall j :: 0 <= j < |cs| ==> start <= cs[j] <= end)
      && (forall j :: 0 <= j < |cs| - 1 ==> cs[j + 1] == cs[j] + k)
    decreases if start > end then 0 else end - start + 1
  {
    if start <= end {
      ChunkStartsShape(start + k, end, k);
    }
  }

  /** In closed form: the j-th chunk start is start + j * k. */
  lemma {:induction false} ChunkStartsClosedForm(start: int, end: int, k: nat, j: nat)
    requires k >= 1 && j < |ChunkStarts(start, end, k)|
    ensures ChunkStarts(start, end, k)[j] == start + j * k
    decreases j
  {
    ChunkStartsShape(start, end, k);
    if j > 0 {
      ChunkStartsClosedForm(start, end, k, j - 1);
      assert start + (j - 1) * k + k == start + j * k;
    }
  }

  /** The chunk starts are strictly increasing, so each keys one window only. */
  lemma ChunkStartsIncreasing(start: int, end: int, k: nat, a: nat, b: nat)
    requires k >= 1 && a < b < |ChunkStarts(start, end, k)|
    ensures ChunkStarts(start, end, k)[a] < ChunkStarts(start, end, k)[b]
  {
    ChunkStartsClosedForm(start, end, k, a);
    ChunkStartsClosedForm(start, end, k, b);
    assert a * k < b * k by {
      assert (b - a) * k >= 1;
    }
  }

  /** Lines 142-147: the window (ts, te) queried for the i-th chunk start. */
  function Window(start: int, end: int, k: nat, i: nat): (w: (int, int))
    requires k >= 1 && i < |ChunkStarts(start, end, k)|
    ensures w.0 == ChunkStarts(start, end, k)[i]
    ensures start <= w.0 <= w.1 <= end && w.1 - w.0 <= k
    ensures w.1 == if end - w.0 > k then w.0 + k else end
    ensures i + 1 < |ChunkStarts(start, end, k)| ==> w.1 == ChunkStarts(start, end, k)[i + 1]
    ensures i + 1 == |ChunkStarts(start, end, k)| ==> w.1 == end
  {
    var cs := ChunkStarts(start, end, k);
    ChunkStartsShape(start, end, k);
    var ts := cs[i];
    if end - ts > k then (ts, cs[i + 1]) else (ts, end)
  }

  /** Dropping the first chunk start shifts the windows by one. */
  lemma {:induction false} WindowShift(start: int, end: int, k: nat, i: nat)
    requires k >= 1 && i + 1 < |ChunkStarts(start, end, k)|
    ensures start + k <= end && i < |ChunkStarts(start + k, end, k)|
    ensures Window(start, end, k, i + 1) == Window(start + k, end, k, i)
  {
    assert ChunkStarts(start, end, k) == [start] + ChunkStarts(start + k, end, k);
  }

  /** The windows cover [start, end]: every day of the range lies in some window. */
  lemma {:induction false} WindowsCover(start: int, end: int, k: nat, d: int)
    requires k >= 1 && start <= d <= end
    ensures exists i :: 0 <= i < |ChunkStarts(start, end, k)| && Window(start, end, k, i).0 <= d <= Window(start, end, k, i).1
    decreases d - start
  {
    ChunkStartsShape(start, end, k);
    var w := Window(start, end, k, 0);
    if d > w.1 {
      assert w.1 == start + k && start + k < end;
      WindowsCover(start + k, end, k, d);
      var i :| 0 <= i < |ChunkStarts(start + k, end, k)| && Window(start + k, end, k, i).0 <= d <= Window(start + k, end, k, i).1;
      assert ChunkStarts(start, end, k) == [start] + ChunkStarts(start + k, end, k);
      WindowShift(start, end, k, i);
    }
  }

  /**
    Windows never exceed the chunk length, so the span advisories of `get_query_params`
    never fire for a window `scrape_daterange` builds.
  */
  lemma NoSpanAdvisory(node: string, m: Market, start: int, end: int, i: nat, stampOf: int -> Stamp)
    requires i < |ChunkStarts(start, end, ChunkPeriod(m))|
    ensures var w := Window(start, end, ChunkPeriod(m), i);
      QueryFor(node, m, w.0, w.1, stampOf).advisories == []
  {
  }

  /** Day 1 to day 3 on RT5 gives the windows [1, 2], [2, 3] and [3, 3]. */
  lemma ThreeDaysOfRt5()
    ensures ChunkStarts(1, 3, ChunkPeriod(RT5)) == [1, 2, 3]
    ensures Window(1, 3, 1, 0) == (1, 2) && Window(1, 3, 1, 1) == (2, 3) && Window(1, 3, 1, 2) == (3, 3)
  {
    assert ChunkStarts(4, 3, 1) == [];
    assert ChunkStarts(3, 3, 1) == [3];
    assert ChunkStarts(2, 3, 1) == [2, 3];
  }

  /** A DA range shorter than the 30-day chunk is one window over the whole range. */
  lemma ShortDayAheadRange(start: int, end: int)
    requires start <= end < start + 30
    ensures ChunkStarts(start, end, ChunkPeriod(DA)) == [start]
    ensures Window(start, end, 30, 0) == (start, end)
  {
    assert ChunkStarts(start + 30, end, 30) == [];
  }
}
